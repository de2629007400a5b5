/** Whole runs of the tunnel agent. */
module TunnelRuns {
  import opened Options
  import opened Bytes
  import opened Frames
  import opened TunnelAgent
  import opened TunnelProofs

  /** The records and the id map agree, every stream keeps its accounts, and the keyring is bounded. */
  predicate Inv(c: Config, a: Agent) {
    && (forall o | o in a.streams :: RecordOk(c, a, o))
    && (forall id | id in a.byId :: IdOk(a, id))
    && |a.keyring| <= MAX_KEYRING
  }

  predicate RecordOk(c: Config, a: Agent, o: nat)
    requires o in a.streams
  {
    var st := a.streams[o];
    && o < a.nextStream && StreamOk(c, st)
    && (!st.closed ==> st.id in a.byId && a.byId[st.id] == o)
  }

  predicate IdOk(a: Agent, id: StreamId)
    requires id in a.byId
  {
    a.byId[id] in a.streams && a.streams[a.byId[id]].id == id && !a.streams[a.byId[id]].closed
  }

  lemma ClosedIsOk(c: Config, st: Stream, reason: string, tellBroker: bool)
    requires Safe(c, st)
    ensures StreamOk(c, Closed(st, reason, tellBroker))
  {
    hide Safe;
    SafeCarriesClosed(c, st, reason, tellBroker);
  }

  lemma SafeCarriesClosed(c: Config, st: Stream, reason: string, tellBroker: bool)
    requires Safe(c, st)
    ensures Safe(c, Closed(st, reason, tellBroker))
  {
    hide Reads, Seals;
    assert Written(Closed(st, reason, tellBroker)) == Written(st);
  }

  /** Putting back a stream that a callback changed, and dropping it when it asks. */
  lemma PutKeepsInv(c: Config, a: Agent, o: nat, r: Outcome)
    requires Inv(c, a) && o in a.streams && OutcomeOk(c, a.streams[o], r)
    ensures Inv(c, Put(a, o, r))
  {
    var t := a.(streams := a.streams[o := r.stream]);
    var u := Put(a, o, r);
    var before := a.streams[o];
    assert RecordOk(c, a, o);
    if r.drop.Some? { ClosedIsOk(c, r.stream, r.drop.value, true); }
    hide StreamOk, Safe;
    if r.drop.None? || before.id !in a.byId {
      forall x | x in u.streams ensures RecordOk(c, u, x) { if x != o { assert RecordOk(c, a, x); } }
      forall id | id in u.byId ensures IdOk(u, id) { assert IdOk(a, id); }
    } else {
      var p := a.byId[before.id];
      assert IdOk(a, before.id) && RecordOk(c, a, p);
      assert t.streams[p].id == before.id;
      DropOtherOk(c, a, t, o, p, r);
    }
  }

  lemma BothAreSafe(c: Config, a: Agent, o: nat, p: nat, r: Outcome)
    requires Inv(c, a) && o in a.streams && OutcomeOk(c, a.streams[o], r)
    requires r.stream.id in a.byId && p == a.byId[r.stream.id] && p in a.streams
    ensures Safe(c, a.streams[p]) && Safe(c, r.stream) && (r.stream.closed ==> StreamOk(c, r.stream))
    ensures r.stream.id == a.streams[o].id == a.streams[p].id && r.stream.closed == a.streams[o].closed && !a.streams[p].closed
  {
    hide Safe;
    assert RecordOk(c, a, p) && IdOk(a, r.stream.id);
  }

  /** The drop reached record `p`: the stream itself, or, once it is closed, a later one with its id. */
  lemma DropOtherOk(c: Config, a: Agent, t: Agent, o: nat, p: nat, r: Outcome)
    requires Inv(c, a) && o in a.streams && OutcomeOk(c, a.streams[o], r) && r.drop.Some?
    requires t == a.(streams := a.streams[o := r.stream])
    requires r.stream.id in a.byId && p == a.byId[r.stream.id] && p in a.streams
    ensures Inv(c, DropStream(t, r.stream.id, r.drop.value, true))
  {
    hide Safe, StreamOk, OutcomeOk;
    var u := DropStream(t, r.stream.id, r.drop.value, true);
    BothAreSafe(c, a, o, p, r);
    ClosedIsOk(c, r.stream, r.drop.value, true);
    ClosedIsOk(c, a.streams[p], r.drop.value, true);
    assert RecordOk(c, a, o) && RecordOk(c, a, p);
    forall x | x in u.streams ensures RecordOk(c, u, x) {
      assert RecordOk(c, a, x);
    }
    forall id | id in u.byId ensures IdOk(u, id) { assert IdOk(a, id); }
  }

  lemma DropKeepsInv(c: Config, a: Agent, id: StreamId, reason: string, tellBroker: bool)
    requires Inv(c, a)
    ensures Inv(c, DropStream(a, id, reason, tellBroker))
  {
    if id in a.byId {
      var u := DropStream(a, id, reason, tellBroker);
      assert IdOk(a, id) && RecordOk(c, a, a.byId[id]);
      ClosedIsOk(c, a.streams[a.byId[id]], reason, tellBroker);
      hide StreamOk;
      forall x | x in u.streams ensures RecordOk(c, u, x) { assert RecordOk(c, a, x); }
      forall i | i in u.byId ensures IdOk(u, i) { assert IdOk(a, i); }
    }
  }

  lemma DropAllKeepsInv(c: Config, a: Agent)
    requires Inv(c, a)
    ensures Inv(c, DropAll(a))
  {
    var u := DropAll(a);
    forall x | x in u.streams ensures RecordOk(c, u, x) {
      assert RecordOk(c, a, x);
      ClosedIsOk(c, a.streams[x], "agent shutting down", false);
      hide StreamOk;
    }
  }

  lemma {:induction false} WithoutDeviceFacts(keyring: seq<KeyEntry>, gone: Device)
    ensures |WithoutDevice(keyring, gone)| <= |keyring|
    ensures forall e :: e in WithoutDevice(keyring, gone) <==> e in keyring && e.device != Some(gone)
  {
    if keyring != [] { WithoutDeviceFacts(keyring[1..], gone); }
  }

  lemma RemoveKeysKeepsInv(c: Config, a: Agent, gone: Device)
    requires Inv(c, a)
    ensures Inv(c, RemoveKeys(a, gone))
  {
    var u := RemoveKeys(a, gone);
    WithoutDeviceFacts(a.keyring, gone);
    hide WithoutDevice;
    forall x | x in u.streams ensures RecordOk(c, u, x) {
      assert RecordOk(c, a, x);
      ClosedIsOk(c, a.streams[x], "revoked", true);
      hide StreamOk;
    }
    forall id | id in u.byId ensures IdOk(u, id) { assert IdOk(a, id); }
  }

  lemma OpenKeepsInv(c: Config, a: Agent, id: StreamId)
    requires Inv(c, a) && id !in a.byId
    ensures Inv(c, Step(c, a, StreamOpens(id)))
  {
    var u := Step(c, a, StreamOpens(id));
    NewStreamOk(c, id);
    hide StreamOk;
    forall o | o in a.streams ensures o < a.nextStream { assert RecordOk(c, a, o); }
    forall x | x in u.streams ensures RecordOk(c, u, x) { if x != a.nextStream { assert RecordOk(c, a, x); } }
    forall i | i in u.byId ensures IdOk(u, i) { if i != id { assert IdOk(a, i); } }
  }

  lemma NewStreamOk(c: Config, id: StreamId)
    ensures StreamOk(c, NewStream(id))
  {
    var st := NewStream(id);
    assert Unbound(st);
  }

  lemma StepKeepsInv(c: Config, a: Agent, e: Event)
    requires Inv(c, a) && Enabled(a, e)
    ensures Inv(c, Step(c, a, e))
  {
    hide StreamOk, Safe, OnJobStart, OnTrialSettled, OnGateSettled, OnOpenSettled, OnSealSettled, OnFrame, OnLocalOpen, OnLocalMessage;
    match e
    case StreamOpens(id) => OpenKeepsInv(c, a, id);
    case FrameArrives(id, data) =>
      if id in a.byId && a.byId[id] in a.streams { QueueKeepsInv(c, a, a.byId[id], e); }
    case StreamCloses(id) => DropKeepsInv(c, a, id, "browser closed", false);
    case TornDown => DropAllKeepsInv(c, a);
    case KeysAdded(entry) =>
      var u := Step(c, a, e);
      forall x | x in u.streams ensures RecordOk(c, u, x) { assert RecordOk(c, a, x); }
      forall i | i in u.byId ensures IdOk(u, i) { assert IdOk(a, i); }
    case KeysRemoved(gone) => RemoveKeysKeepsInv(c, a, gone);
    case LocalOpens(o) => QueueKeepsInv(c, a, o, e);
    case LocalSays(o, line) => QueueKeepsInv(c, a, o, e);
    case LocalCloses(o) => DropKeepsInv(c, a, a.streams[o].id, "local closed", true);
    case JobStarts(o) => JobKeepsInv(c, a, o, e);
    case TrialSettles(o, salt) => JobKeepsInv(c, a, o, e);
    case GateSettles(o, verdict) => JobKeepsInv(c, a, o, e);
    case OpenSettles(o) => JobKeepsInv(c, a, o, e);
    case SealSettles(o, sealed) => JobKeepsInv(c, a, o, e);
  }

  lemma JobKeepsInv(c: Config, a: Agent, o: nat, e: Event)
    requires Inv(c, a) && Enabled(a, e) && o in a.streams
    requires match e
      case JobStarts(x) => x == o
      case TrialSettles(x, _) => x == o
      case GateSettles(x, _) => x == o
      case OpenSettles(x) => x == o
      case SealSettles(x, _) => x == o
      case _ => false
    ensures Inv(c, Step(c, a, e))
  {
    assert RecordOk(c, a, o);
    var st := a.streams[o];
    hide Inv, StreamOk, OnJobStart, OnTrialSettled, OnGateSettled, OnOpenSettled, OnSealSettled, OutcomeOk, Put, RecordOk;
    match e
    case JobStarts(_) => JobStartOk(c, st, a.keyring); PutKeepsInv(c, a, o, OnJobStart(c, st, a.keyring));
    case TrialSettles(_, salt) => TrialOk(c, st, a.keyring, salt); PutKeepsInv(c, a, o, OnTrialSettled(c, st, a.keyring, salt));
    case GateSettles(_, verdict) => GateOk(c, st, verdict); PutKeepsInv(c, a, o, OnGateSettled(c, st, verdict));
    case OpenSettles(_) => OpenSettledOk(c, st); PutKeepsInv(c, a, o, OnOpenSettled(c, st));
    case SealSettles(_, sealed) => SealSettledOk(c, st, sealed); PutKeepsInv(c, a, o, OnSealSettled(c, st, sealed));
    case _ =>
  }

  lemma QueueKeepsInv(c: Config, a: Agent, o: nat, e: Event)
    requires Inv(c, a) && Enabled(a, e) && o in a.streams
    requires match e
      case FrameArrives(id, _) => id in a.byId && a.byId[id] == o
      case LocalOpens(x) => x == o
      case LocalSays(x, _) => x == o
      case _ => false
    ensures Inv(c, Step(c, a, e))
  {
    assert RecordOk(c, a, o);
    var st := a.streams[o];
    assert OnLocalOpen(st).closed == st.closed && OnLocalOpen(st).id == st.id;
    assert e.LocalSays? ==> OnLocalMessage(st, e.line).closed == st.closed && OnLocalMessage(st, e.line).id == st.id;
    assert e.FrameArrives? ==> OnFrame(st, e.data).closed == st.closed && OnFrame(st, e.data).id == st.id;
    match e
    case FrameArrives(_, data) => FrameArrivesOk(c, st, data); PutQueued(c, a, o, OnFrame(st, data));
    case LocalOpens(_) => LocalOpenOk(c, st); PutQueued(c, a, o, OnLocalOpen(st));
    case LocalSays(_, line) => LocalMessageOk(c, st, line); PutQueued(c, a, o, OnLocalMessage(st, line));
    case _ =>
    hide Inv, StreamOk, OnFrame, OnLocalOpen, OnLocalMessage, Put;
  }

  lemma PutQueued(c: Config, a: Agent, o: nat, st: Stream)
    requires Inv(c, a) && o in a.streams && StreamOk(c, st) && st.closed == a.streams[o].closed && st.id == a.streams[o].id
    ensures Inv(c, Put(a, o, Keep(st)))
  {
    PutKeepsInv(c, a, o, Keep(st));
    hide Inv, Put;
  }

  // ---------------------------------------------------------------------------
  // Runs
  // ---------------------------------------------------------------------------

  predicate AllEnabled(c: Config, a: Agent, es: seq<Event>)
    decreases |es|
  {
    es == [] || (Enabled(a, es[0]) && AllEnabled(c, Step(c, a, es[0]), es[1..]))
  }

  function Exec(c: Config, a: Agent, es: seq<Event>): Agent
    requires AllEnabled(c, a, es)
    decreases |es|
  {
    if es == [] then a else Exec(c, Step(c, a, es[0]), es[1..])
  }

  lemma {:induction false} RunsKeepInv(c: Config, a: Agent, es: seq<Event>)
    requires Inv(c, a) && AllEnabled(c, a, es)
    ensures Inv(c, Exec(c, a, es))
    decreases |es|
  {
    hide Inv, Step, Enabled;
    if es != [] {
      StepKeepsInv(c, a, es[0]);
      RunsKeepInv(c, Step(c, a, es[0]), es[1..]);
    }
  }

  /** Main result: for every interleaving of broker frames, loopback messages, awaits, gate answers and
    * closes, what a stream wrote to loopback is exactly what its first frames say, opened in arrival order
    * under one key; what it sent is exactly the relay's first lines, sealed in order under one key; both
    * are empty until it is let through; and the keyring never holds more than its cap. */
  lemma ExactFifo(c: Config, es: seq<Event>, o: nat)
    requires AllEnabled(c, START, es) && o in Exec(c, START, es).streams
    ensures var st := Exec(c, START, es).streams[o];
            && (!st.admitted ==> st.localOut == [] && st.sent == [])
            && (st.admitted ==> st.opener.Some? && st.sealer.Some? && |Written(st)| <= |st.arrived|)
            && (st.admitted ==> Reads(c, st.opener.value.key, st.arrived[..|Written(st)|], Written(st)))
            && (st.admitted ==> Seals(c, st.sealer.value.key, st.sealer.value.salt, st.sent, st.relayed))
    ensures |Exec(c, START, es).keyring| <= MAX_KEYRING
  {
    RunsKeepInv(c, START, es);
    assert RecordOk(c, Exec(c, START, es), o);
    hide Exec, Reads, Seals, Unbound, BeingAsked, Flowing;
  }

  // ---------------------------------------------------------------------------
  // The gate, and whose keys
  // ---------------------------------------------------------------------------

  predicate SaysYes(e: Event, o: nat) {
    e.GateSettles? && e.stream == o && e.verdict == Yes
  }

  /** Apart from the stream a callback ran on, a step changes no more than `closed` and `told`. */
  lemma PutLeaves(a: Agent, o: nat, r: Outcome, x: nat)
    requires x in Put(a, o, r).streams
    ensures x == o || x in a.streams
    ensures var st := if x == o then r.stream else a.streams[x];
            Put(a, o, r).streams[x] == st.(closed := Put(a, o, r).streams[x].closed, told := Put(a, o, r).streams[x].told)
    ensures var st := if x == o then r.stream else a.streams[x];
            st.closed ==> Put(a, o, r).streams[x].closed
  {
  }

  lemma JobAdmitsNobody(c: Config, st: Stream, keyring: seq<KeyEntry>)
    requires st.phase.Idle? && st.jobs != []
    ensures OnJobStart(c, st, keyring).stream.admitted == st.admitted
  {
    hide Decode, FrameAt;
  }

  lemma OnlyTheGateAdmits(c: Config, a: Agent, e: Event, o: nat)
    requires Enabled(a, e) && c.gated && o in Step(c, a, e).streams && Step(c, a, e).streams[o].admitted
    ensures (o in a.streams && a.streams[o].admitted) || SaysYes(e, o)
  {
    hide Seal, Bind, Open, Decode, Encode, WithoutDevice, Put, OnJobStart, LetThrough, FlushNext;
    match e
    case FrameArrives(id, data) =>
      if id in a.byId && a.byId[id] in a.streams && !a.streams[a.byId[id]].closed { PutLeaves(a, a.byId[id], Keep(OnFrame(a.streams[a.byId[id]], data)), o); }
    case LocalOpens(x) => PutLeaves(a, x, Keep(OnLocalOpen(a.streams[x])), o);
    case LocalSays(x, line) => PutLeaves(a, x, Keep(OnLocalMessage(a.streams[x], line)), o);
    case JobStarts(x) => JobAdmitsNobody(c, a.streams[x], a.keyring); PutLeaves(a, x, OnJobStart(c, a.streams[x], a.keyring), o);
    case TrialSettles(x, salt) => PutLeaves(a, x, OnTrialSettled(c, a.streams[x], a.keyring, salt), o);
    case GateSettles(x, verdict) => PutLeaves(a, x, OnGateSettled(c, a.streams[x], verdict), o);
    case OpenSettles(x) => PutLeaves(a, x, OnOpenSettled(c, a.streams[x]), o);
    case SealSettles(x, sealed) => SealAdmitsNobody(c, a.streams[x], sealed); PutLeaves(a, x, OnSealSettled(c, a.streams[x], sealed), o);
    case _ =>
  }

  lemma SealAdmitsNobody(c: Config, st: Stream, sealed: bool)
    requires (st.phase.Sealing? || st.phase.Flushing?) && st.sealer.Some?
    ensures OnSealSettled(c, st, sealed).stream.admitted == st.admitted
    ensures OnSealSettled(c, st, sealed).stream.device == st.device && !OnSealSettled(c, st, sealed).stream.phase.Trying?
    ensures OnSealSettled(c, st, sealed).stream.closed == st.closed
  {
    hide FrameAt, Encode;
  }

  /** Main result: with a gate installed, nothing crosses a stream in either direction unless the gate said
    * yes to that very stream. */
  lemma {:induction false} NothingCrossesUnlessAdmitted(c: Config, a: Agent, es: seq<Event>, o: nat)
    requires c.gated && AllEnabled(c, a, es) && Inv(c, a) && (o in a.streams ==> !a.streams[o].admitted)
    requires forall i | 0 <= i < |es| :: !SaysYes(es[i], o)
    ensures o in Exec(c, a, es).streams ==> Written(Exec(c, a, es).streams[o]) == [] && Exec(c, a, es).streams[o].sent == []
    decreases |es|
  {
    if es == [] {
      if o in a.streams { assert RecordOk(c, a, o); }
    } else {
      var b := Step(c, a, es[0]);
      StepKeepsInv(c, a, es[0]);
      assert !SaysYes(es[0], o);
      if o in b.streams && b.streams[o].admitted { OnlyTheGateAdmits(c, a, es[0], o); }
      forall i | 0 <= i < |es[1..]| ensures !SaysYes(es[1..][i], o) { assert es[1..][i] == es[i + 1]; }
      hide Inv, Step, Enabled, SaysYes, Written;
      NothingCrossesUnlessAdmitted(c, b, es[1..], o);
    }
  }

  // ---------------------------------------------------------------------------
  // From end to end
  // ---------------------------------------------------------------------------

  /** These are a prefix of the frames a browser seals for these lines. */
  predicate BrowserSent(c: Config, key: Key, salt: Salt, datas: seq<Data>, lines: seq<Line>) {
    |datas| <= |lines| && forall i | 0 <= i < |datas| :: datas[i] == Encode(FrameAt(c.cipher, key, C2S, salt, i, c.utf8(lines[i])))
  }

  function Bytewise(c: Config, lines: seq<Line>): (r: seq<seq<Byte>>)
    ensures |r| == |lines|
  {
    seq(|lines|, i requires 0 <= i < |lines| => c.utf8(lines[i]))
  }

  /** The text codec loses nothing of these lines. */
  predicate Faithful(c: Config, lines: seq<Line>) {
    forall i | 0 <= i < |lines| :: c.text(c.utf8(lines[i])) == lines[i]
  }

  lemma DecodedIsSealed(c: Config, key: Key, direction: Direction, salt: Salt, datas: seq<Data>, lines: seq<Line>)
    requires |datas| == |lines|
    requires forall i | 0 <= i < |datas| :: datas[i] == Encode(FrameAt(c.cipher, key, direction, salt, i, c.utf8(lines[i])))
    ensures Decoded(datas) == SealedFrames(c.cipher, key, direction, salt, Bytewise(c, lines))
  {
    hide Decode, Encode, FrameAt;
    forall i | 0 <= i < |datas|
      ensures Decoded(datas)[i] == SealedFrames(c.cipher, key, direction, salt, Bytewise(c, lines))[i]
    {
      DecodeInvertsEncode(FrameAt(c.cipher, key, direction, salt, i, c.utf8(lines[i])));
    }
  }

  lemma TextsOfBytewise(c: Config, lines: seq<Line>)
    requires Faithful(c, lines)
    ensures Texts(c, Bytewise(c, lines)) == lines
  {
  }

  /** Main result: when the broker forwards a prefix of the browser's frames in order and the stream is bound
    * under the browser's key, loopback receives exactly the browser's first lines, unchanged and in order. */
  lemma BrowserToLoopback(c: Config, es: seq<Event>, o: nat, key: Key, salt: Salt, lines: seq<Line>)
    requires Undoes(c.cipher) && Faithful(c, lines) && |lines| <= MAX_COUNTER
    requires AllEnabled(c, START, es) && o in Exec(c, START, es).streams
    requires var st := Exec(c, START, es).streams[o];
             BrowserSent(c, key, salt, st.arrived, lines) && (st.opener.Some? ==> st.opener.value.key == key)
    ensures Written(Exec(c, START, es).streams[o]) <= lines
  {
    ExactFifo(c, es, o);
    var st := Exec(c, START, es).streams[o];
    hide Exec, Undoes, FrameAt, Encode, Decode, Written, OpenAll;
    if st.admitted {
      var n := |Written(st)|;
      var first := lines[..n];
      assert n > 0;
      DecodedIsSealed(c, key, C2S, salt, st.arrived[..n], first);
      OpeningUndoesSealing(c.cipher, key, C2S, salt, Bytewise(c, first));
      TextsOfBytewise(c, first);
    } else {
      WrittenEmpty(c, es, o);
    }
  }

  lemma WrittenEmpty(c: Config, es: seq<Event>, o: nat)
    requires AllEnabled(c, START, es) && o in Exec(c, START, es).streams && !Exec(c, START, es).streams[o].admitted
    ensures Written(Exec(c, START, es).streams[o]) == []
  {
    RunsKeepInv(c, START, es);
    assert RecordOk(c, Exec(c, START, es), o);
    hide Exec, Written, Unbound, BeingAsked, Flowing;
  }

  /** Main result: whoever opens what the agent sent, in order, under the sealing key reads exactly the
    * relay's first lines. */
  lemma LoopbackToBrowser(c: Config, es: seq<Event>, o: nat)
    requires Undoes(c.cipher) && AllEnabled(c, START, es) && o in Exec(c, START, es).streams
    requires var st := Exec(c, START, es).streams[o];
             Faithful(c, st.relayed) && 0 < |st.sent| <= MAX_COUNTER
    ensures var st := Exec(c, START, es).streams[o];
            && st.sealer.Some? && |st.sent| <= |st.relayed|
            && OpenAll(c.cipher, st.sealer.value.key, S2C, Decoded(st.sent)).Some?
            && Texts(c, OpenAll(c.cipher, st.sealer.value.key, S2C, Decoded(st.sent)).value.1) == st.relayed[..|st.sent|]
  {
    ExactFifo(c, es, o);
    var st := Exec(c, START, es).streams[o];
    hide Exec, Undoes, FrameAt, Encode, Decode, Written, OpenAll, Reads;
    var first := st.relayed[..|st.sent|];
    var s := st.sealer.value;
    assert forall i | 0 <= i < |first| :: st.sent[i] == SealedAt(c, s.key, s.salt, i, first[i]);
    DecodedIsSealed(c, s.key, S2C, s.salt, st.sent, first);
    OpeningUndoesSealing(c.cipher, s.key, S2C, s.salt, Bytewise(c, first));
    TextsOfBytewise(c, first);
  }
}

/** What every stream of the tunnel agent keeps, step by step, and what that means for whole runs. */
module TunnelProofs {
  import opened Options
  import opened Bytes
  import opened Frames
  import opened TunnelAgent

  // ---------------------------------------------------------------------------
  // One stream's accounts
  // ---------------------------------------------------------------------------

  function OpenDatas(jobs: seq<Job>): seq<Data> {
    if jobs == [] then [] else (if jobs[0].OpenJob? then [jobs[0].data] else []) + OpenDatas(jobs[1..])
  }

  function SealLines(jobs: seq<Job>): seq<Line> {
    if jobs == [] then [] else (if jobs[0].SealJob? then [jobs[0].line] else []) + SealLines(jobs[1..])
  }

  lemma {:induction false} JobsAppend(jobs: seq<Job>, job: Job)
    ensures OpenDatas(jobs + [job]) == if job.OpenJob? then OpenDatas(jobs) + [job.data] else OpenDatas(jobs)
    ensures SealLines(jobs + [job]) == if job.SealJob? then SealLines(jobs) + [job.line] else SealLines(jobs)
  {
    if jobs != [] {
      JobsAppend(jobs[1..], job);
      assert (jobs + [job])[1..] == jobs[1..] + [job];
    }
  }

  /** Everything the stream has for loopback, sent or held until the socket opens. */
  function Written(st: Stream): seq<Line> {
    st.localOut + st.toLocal
  }

  /** The frames as bytes; one that is not base64url becomes the empty frame, which nothing opens. */
  function Decoded(datas: seq<Data>): (r: seq<seq<Byte>>)
    ensures |r| == |datas|
  {
    seq(|datas|, i requires 0 <= i < |datas| => if Decode(datas[i]).Some? then Decode(datas[i]).value else [])
  }

  function Texts(c: Config, plaintexts: seq<seq<Byte>>): (r: seq<Line>)
    ensures |r| == |plaintexts|
  {
    seq(|plaintexts|, i requires 0 <= i < |plaintexts| => c.text(plaintexts[i]))
  }

  /** These lines are what the frames say under this key, opened one after the other. */
  predicate Reads(c: Config, key: Key, datas: seq<Data>, lines: seq<Line>) {
    && datas != []
    && OpenAll(c.cipher, key, C2S, Decoded(datas)).Some?
    && lines == Texts(c, OpenAll(c.cipher, key, C2S, Decoded(datas)).value.1)
  }

  /** The `n`th sealed line of a stream. */
  function SealedAt(c: Config, key: Key, salt: Salt, n: nat, line: Line): Data {
    Encode(FrameAt(c.cipher, key, S2C, salt, n, c.utf8(line)))
  }

  /** These frames are the first of these lines, sealed in order. */
  predicate Seals(c: Config, key: Key, salt: Salt, sent: seq<Data>, lines: seq<Line>) {
    |sent| <= |lines| && forall i | 0 <= i < |sent| :: sent[i] == SealedAt(c, key, salt, i, lines[i])
  }

  /** What never fails, open or closed: nothing crossed before admission, and after it exactly a prefix
    * in order, each way. */
  predicate Safe(c: Config, st: Stream) {
    && (st.localOpen ==> st.toLocal == [])
    && (!st.admitted ==> Written(st) == [] && st.sent == [])
    && (st.admitted ==> st.opener.Some? && st.sealer.Some?)
    && (st.admitted ==> |Written(st)| <= |st.arrived| && Reads(c, st.opener.value.key, st.arrived[..|Written(st)|], Written(st)))
    && (st.admitted ==> Seals(c, st.sealer.value.key, st.sealer.value.salt, st.sent, st.relayed))
  }

  /** The frames after the first `done` are the one being opened, if there is one, and the queued ones. */
  predicate FramesWait(st: Stream, done: nat) {
    if st.phase.Trying? || st.phase.Opening? then
      done < |st.arrived| && Decode(st.arrived[done]) == Some(st.phase.frame) && st.arrived[done + 1..] == OpenDatas(st.jobs)
    else done <= |st.arrived| && st.arrived[done..] == OpenDatas(st.jobs)
  }

  predicate Unbound(st: Stream) {
    && st.opener.None? && st.sealer.None? && st.device.None? && !st.admitted
    && (st.phase.Idle? || st.phase.Trying?)
    && FramesWait(st, 0)
    && st.relayed == st.toBroker + SealLines(st.jobs)
  }

  predicate BeingAsked(c: Config, st: Stream) {
    && st.opener.Some? && st.sealer.Some? && !st.admitted && st.phase.Asking?
    && st.sealer.value.direction == S2C && st.sealer.value.counter == 0
    && st.arrived != [] && Decode(st.arrived[0]).Some? && st.arrived[1..] == OpenDatas(st.jobs)
    && Bind(c.cipher, st.opener.value.key, C2S, Decode(st.arrived[0]).value).Some?
    && Bind(c.cipher, st.opener.value.key, C2S, Decode(st.arrived[0]).value).value.0 == st.opener.value
    && c.text(Bind(c.cipher, st.opener.value.key, C2S, Decode(st.arrived[0]).value).value.1) == st.phase.line
    && st.relayed == st.toBroker + SealLines(st.jobs)
  }

  /** Lines taken off the queue and not yet sent. */
  function Unsent(phase: Phase): seq<Line> {
    match phase
    case Sealing(line, _) => [line]
    case Flushing(line, _, held) => [line] + held
    case _ => []
  }

  predicate SealerOk(c: Config, st: Stream)
    requires st.sealer.Some?
  {
    var s := st.sealer.value;
    && s.direction == S2C
    && (if st.phase.Sealing? || st.phase.Flushing? then
          s.counter == |st.sent| + 1 && st.phase.frame == FrameAt(c.cipher, s.key, S2C, s.salt, |st.sent|, c.utf8(st.phase.line))
        else s.counter == |st.sent|)
  }

  predicate Flowing(c: Config, st: Stream) {
    && st.opener.Some? && st.sealer.Some? && st.admitted
    && (st.phase.Idle? || st.phase.Opening? || st.phase.Sealing? || st.phase.Flushing?)
    && st.toBroker == [] && FramesWait(st, |Written(st)|)
    && OpenerOk(c, st)
    && SealerOk(c, st)
    && |st.sent| <= |st.relayed| && st.relayed[|st.sent|..] == Unsent(st.phase) + SealLines(st.jobs)
  }

  /** The opener has taken exactly the frames whose lines were written. */
  predicate OpenerOk(c: Config, st: Stream)
    requires st.opener.Some?
  {
    && 0 < |Written(st)| <= |st.arrived|
    && OpenAll(c.cipher, st.opener.value.key, C2S, Decoded(st.arrived[..|Written(st)|])).Some?
    && OpenAll(c.cipher, st.opener.value.key, C2S, Decoded(st.arrived[..|Written(st)|])).value.0 == st.opener.value
  }

  predicate StreamOk(c: Config, st: Stream) {
    Safe(c, st) && (!st.closed ==> Unbound(st) || BeingAsked(c, st) || Flowing(c, st))
  }

  /** A callback's outcome is good when the stream is, or will be once it is dropped as asked. */
  predicate OutcomeOk(c: Config, before: Stream, r: Outcome) {
    && Safe(c, r.stream) && r.stream.closed == before.closed && r.stream.id == before.id
    && (r.drop.None? ==> StreamOk(c, r.stream))
  }

  /** Safety does not look at the queue, the phase or the counters. */
  lemma SafeCarries(c: Config, s: Stream, t: Stream)
    requires Safe(c, s)
    requires t.localOpen == s.localOpen && t.toLocal == s.toLocal && t.localOut == s.localOut && t.admitted == s.admitted
    requires t.sent == s.sent && t.arrived == s.arrived && t.relayed == s.relayed
    requires s.admitted ==> t.opener.Some? && s.opener.Some? && t.opener.value.key == s.opener.value.key
    requires s.admitted ==> t.sealer.Some? && s.sealer.Some? && t.sealer.value.key == s.sealer.value.key && t.sealer.value.salt == s.sealer.value.salt
    ensures Safe(c, t)
  {
    assert Written(t) == Written(s);
    hide Written, Reads, Seals;
  }

  lemma OpenerCarries(c: Config, s: Stream, t: Stream)
    requires s.opener.Some? && OpenerOk(c, s) && t.opener == s.opener
    requires t.toLocal == s.toLocal && t.localOut == s.localOut && t.arrived == s.arrived
    ensures OpenerOk(c, t)
  {
    assert Written(t) == Written(s);
    hide Written, OpenAll, Decoded;
  }

  lemma FrameArrivesOk(c: Config, st: Stream, data: Data)
    requires StreamOk(c, st)
    ensures StreamOk(c, OnFrame(st, data))
  {
    var t := OnFrame(st, data);
    JobsAppend(st.jobs, OpenJob(data));
    hide OpenDatas, SealLines, Bind, Decode, FrameAt, Reads, Seals;
    if st.admitted {
      assert (st.arrived + [data])[..|Written(st)|] == st.arrived[..|Written(st)|];
    }
    if !st.closed {
      var n := |Written(st)|;
      if Unbound(st) { WaitsMore(st, 0, data); }
      else if BeingAsked(c, st) { assert t.arrived[1..] == st.arrived[1..] + [data]; }
      else { WaitsMore(st, n, data); }
    }
  }

  lemma WaitsMore(st: Stream, done: nat, data: Data)
    requires FramesWait(st, done)
    ensures FramesWait(OnFrame(st, data), done)
  {
    hide OpenDatas, SealLines, Decode;
    JobsAppend(st.jobs, OpenJob(data));
    var t := OnFrame(st, data);
    if st.phase.Trying? || st.phase.Opening? {
      assert t.arrived[done + 1..] == st.arrived[done + 1..] + [data];
    } else {
      assert t.arrived[done..] == st.arrived[done..] + [data];
    }
  }

  lemma LocalMessageOk(c: Config, st: Stream, line: Line)
    requires StreamOk(c, st)
    ensures StreamOk(c, OnLocalMessage(st, line))
  {
    var t := OnLocalMessage(st, line);
    JobsAppend(st.jobs, SealJob(line));
    hide OpenDatas, SealLines, Bind, Decode, FrameAt, Reads, SealedAt, Encode, OpenAll;
    if !st.closed {
      if Unbound(st) {
        assert t.relayed == t.toBroker + SealLines(t.jobs);
      } else if BeingAsked(c, st) {
        assert t.relayed == t.toBroker + SealLines(t.jobs);
      } else {
        assert t.relayed[|t.sent|..] == st.relayed[|st.sent|..] + [line];
        assert t.relayed[|t.sent|..] == Unsent(t.phase) + SealLines(t.jobs);
      }
    }
  }

  lemma LocalOpenOk(c: Config, st: Stream)
    requires StreamOk(c, st)
    ensures StreamOk(c, OnLocalOpen(st)) && Written(OnLocalOpen(st)) == Written(st)
  {
    var t := OnLocalOpen(st);
    assert Written(t) == Written(st);
    hide OpenDatas, SealLines, Bind, Decode, FrameAt, Reads, Seals, Written, OpenAll;
  }

  /** A bound stream between two lines: everything accounted for but `held`, which is about to be sealed. */
  predicate ReadyToSeal(c: Config, st: Stream, held: seq<Line>) {
    && st.opener.Some? && st.sealer.Some? && st.admitted && st.toBroker == []
    && |Written(st)| <= |st.arrived| && st.arrived[|Written(st)|..] == OpenDatas(st.jobs)
    && OpenerOk(c, st)
    && st.sealer.value.direction == S2C && st.sealer.value.counter == |st.sent|
    && |st.sent| <= |st.relayed| && st.relayed[|st.sent|..] == held + SealLines(st.jobs)
  }

  lemma FlushNextOk(c: Config, st: Stream, held: seq<Line>)
    requires Safe(c, st) && st.sealer.Some? && (!st.closed ==> ReadyToSeal(c, st, held))
    ensures OutcomeOk(c, st, FlushNext(c, st, held))
  {
    var t := FlushNext(c, st, held).stream;
    assert Written(t) == Written(st);
    hide OpenDatas, SealLines, Bind, FrameAt, Reads, SealedAt, OpenAll, Written, Decoded;
    if !st.closed && held != [] && t.phase.Flushing? {
      assert held == [held[0]] + held[1..];
      assert Flowing(c, t);
    }
  }

  /** Reading one frame more. */
  lemma ReadsOn(c: Config, opener: Opener, datas: seq<Data>, lines: seq<Line>, data: Data)
    requires Reads(c, opener.key, datas, lines) && Decode(data).Some? && OpenAll(c.cipher, opener.key, C2S, Decoded(datas)).value.0 == opener
    requires Open(c.cipher, opener, Decode(data).value).Some?
    ensures var r := Open(c.cipher, opener, Decode(data).value).value;
            && r.0.key == opener.key
            && Reads(c, opener.key, datas + [data], lines + [c.text(r.1)])
            && OpenAll(c.cipher, opener.key, C2S, Decoded(datas + [data])).value.0 == r.0
  {
    hide Decode, ReadBigEndian;
    var frames := Decoded(datas + [data]);
    assert frames[..|frames| - 1] == Decoded(datas);
    assert frames[|frames| - 1] == Decode(data).value;
    var ps := OpenAll(c.cipher, opener.key, C2S, Decoded(datas)).value.1;
    var p := Open(c.cipher, opener, Decode(data).value).value.1;
    assert OpenAll(c.cipher, opener.key, C2S, frames).value.1 == ps + [p];
    assert Texts(c, ps + [p]) == Texts(c, ps) + [c.text(p)];
  }

  lemma ReadsFirst(c: Config, key: Key, data: Data)
    requires Decode(data).Some? && Bind(c.cipher, key, C2S, Decode(data).value).Some?
    ensures var r := Bind(c.cipher, key, C2S, Decode(data).value).value;
            && r.0.key == key
            && Reads(c, key, [data], [c.text(r.1)])
            && OpenAll(c.cipher, key, C2S, Decoded([data])).value.0 == r.0
  {
    hide Decode, ReadBigEndian;
    var frames := Decoded([data]);
    assert frames == [Decode(data).value];
    var p := Bind(c.cipher, key, C2S, Decode(data).value).value.1;
    assert Texts(c, [p]) == [c.text(p)];
  }

  lemma WriteLocalAppends(st: Stream, line: Line)
    requires st.localOpen ==> st.toLocal == []
    ensures Written(WriteLocal(st, line)) == Written(st) + [line]
  {
  }

  lemma LetThroughOk(c: Config, st: Stream)
    requires Safe(c, st) && BeingAsked(c, st)
    ensures OutcomeOk(c, st, LetThrough(c, st, st.phase.line))
  {
    var line := st.phase.line;
    var data := st.arrived[0];
    var key := st.opener.value.key;
    ReadsFirst(c, key, data);
    var u := st.(admitted := true);
    var t := WriteLocal(u, line);
    var v := t.(toBroker := []);
    assert st.arrived[..1] == [data];
    hide OpenDatas, SealLines, Bind, FrameAt, Reads, SealedAt, OpenAll, Decoded, Decode;
    WriteLocalAppends(u, line);
    assert Written(v) == Written(t) == [line];
    hide Written, WriteLocal;
    assert v.opener == st.opener && v.sealer == st.sealer && v.sent == [] && v.relayed == st.relayed && v.arrived == st.arrived && v.jobs == st.jobs by {
      WriteLocalFrame(u, line);
    }
    assert v.admitted && v.closed == st.closed && t.toBroker == st.toBroker && v.id == st.id by { WriteLocalFrame(u, line); }
    assert Seals(c, v.sealer.value.key, v.sealer.value.salt, v.sent, v.relayed);
    assert v.relayed[0..] == v.relayed;
    FlushNextOk(c, v, t.toBroker);
  }

  lemma WriteLocalFrame(st: Stream, line: Line)
    ensures WriteLocal(st, line) == st.(localOut := WriteLocal(st, line).localOut, toLocal := WriteLocal(st, line).toLocal)
  {
  }

  lemma TrialOk(c: Config, st: Stream, keyring: seq<KeyEntry>, salt: Salt)
    requires StreamOk(c, st) && st.phase.Trying?
    ensures OutcomeOk(c, st, OnTrialSettled(c, st, keyring, salt))
  {
    var r := OnTrialSettled(c, st, keyring, salt);
    var key := st.phase.entry.c2s;
    assert Bind(c.cipher, key, C2S, st.phase.frame).Some? ==> Bind(c.cipher, key, C2S, st.phase.frame).value.0.key == key;
    hide OpenDatas, SealLines, Bind, FrameAt, Reads, Seals, OpenAll, Decoded, Decode, LetThrough, FlushNext;
    match Bind(c.cipher, key, C2S, st.phase.frame)
    case None =>
    case Some((opener, plaintext)) =>
      if !st.closed {
        var line := c.text(plaintext);
        var bound := st.(opener := Some(opener), sealer := Some(Sealer(st.phase.entry.s2c, S2C, salt, 0)), device := st.phase.entry.device);
        var asked := bound.(phase := Asking(line));
        assert Written(asked) == Written(st);
        assert BeingAsked(c, asked);
        LetThroughOk(c, asked);
        LetThroughIgnoresPhase(c, bound, Asking(line), line);
      }
  }

  lemma LetThroughIgnoresPhase(c: Config, st: Stream, phase: Phase, line: Line)
    requires st.sealer.Some?
    ensures LetThrough(c, st, line) == LetThrough(c, st.(phase := phase), line)
  {
  }

  lemma GateOk(c: Config, st: Stream, verdict: Verdict)
    requires StreamOk(c, st) && st.phase.Asking? && st.sealer.Some?
    ensures OutcomeOk(c, st, OnGateSettled(c, st, verdict))
  {
    hide OpenDatas, SealLines, Bind, FrameAt, Reads, Seals, OpenAll, Decoded, Decode, LetThrough, FlushNext;
    if verdict == Yes && !st.closed { LetThroughOk(c, st); }
  }

  /** Only the queue, the phase, the hold buffer and the sealer's counter may change. */
  predicate JobFields(st: Stream, t: Stream) {
    && t == st.(jobs := t.jobs, phase := t.phase, toBroker := t.toBroker, sealer := t.sealer)
    && (st.sealer.Some? ==> t.sealer.Some? && t.sealer.value.key == st.sealer.value.key && t.sealer.value.salt == st.sealer.value.salt)
  }

  lemma StartOpenFields(st: Stream, keyring: seq<KeyEntry>, data: Data)
    ensures JobFields(st, StartOpen(st, keyring, data).stream)
  {
    hide Decode;
  }

  lemma StartSealFields(c: Config, st: Stream, line: Line)
    ensures JobFields(st, StartSeal(c, st, line).stream)
  {
    hide FrameAt;
  }

  lemma JobStartFields(c: Config, st: Stream, keyring: seq<KeyEntry>)
    requires st.phase.Idle? && st.jobs != []
    ensures JobFields(st, OnJobStart(c, st, keyring).stream)
  {
    hide StartOpen, StartSeal;
    var t := st.(jobs := st.jobs[1..]);
    match st.jobs[0]
    case OpenJob(data) => StartOpenFields(t, keyring, data);
    case SealJob(line) => StartSealFields(c, t, line);
  }

  lemma JobStartOk(c: Config, st: Stream, keyring: seq<KeyEntry>)
    requires StreamOk(c, st) && st.phase.Idle? && st.jobs != []
    ensures OutcomeOk(c, st, OnJobStart(c, st, keyring))
  {
    assert st.admitted ==> st.opener.Some? && st.sealer.Some?;
    hide OnJobStart, Unbound, BeingAsked, Flowing, Safe;
    var r := OnJobStart(c, st, keyring);
    JobStartFields(c, st, keyring);
    SafeCarries(c, st, r.stream);
    if !st.closed && r.drop.None? {
      if st.jobs[0].OpenJob? { OpenStartOk(c, st, keyring); } else { SealStartOk(c, st, keyring); }
    }
  }

  lemma OpenStartOk(c: Config, st: Stream, keyring: seq<KeyEntry>)
    requires StreamOk(c, st) && st.phase.Idle? && st.jobs != [] && st.jobs[0].OpenJob? && !st.closed
    requires OnJobStart(c, st, keyring).drop.None?
    ensures Unbound(OnJobStart(c, st, keyring).stream) || Flowing(c, OnJobStart(c, st, keyring).stream)
  {
    var t := OnJobStart(c, st, keyring).stream;
    var rest := st.jobs[1..];
    assert OpenDatas(st.jobs) == [st.jobs[0].data] + OpenDatas(rest);
    assert SealLines(st.jobs) == SealLines(rest);
    assert Written(t) == Written(st);
    hide OpenDatas, SealLines, Bind, FrameAt, Reads, OpenAll, Decoded, Decode, SealedAt, Written, Seals;
    var done := if st.opener.None? then 0 else |Written(st)|;
    assert st.arrived[done] == st.arrived[done..][0];
    assert st.arrived[done + 1..] == st.arrived[done..][1..];
  }

  lemma SealStartOk(c: Config, st: Stream, keyring: seq<KeyEntry>)
    requires StreamOk(c, st) && st.phase.Idle? && st.jobs != [] && st.jobs[0].SealJob? && !st.closed
    requires OnJobStart(c, st, keyring).drop.None?
    ensures Unbound(OnJobStart(c, st, keyring).stream) || Flowing(c, OnJobStart(c, st, keyring).stream)
  {
    var t := OnJobStart(c, st, keyring).stream;
    var rest := st.jobs[1..];
    assert OpenDatas(st.jobs) == OpenDatas(rest);
    assert SealLines(st.jobs) == [st.jobs[0].line] + SealLines(rest);
    assert Written(t) == Written(st);
    hide OpenDatas, SealLines, Bind, FrameAt, Reads, OpenAll, Decoded, Decode, SealedAt, Written, Seals;
    if st.opener.None? { assert t.relayed == t.toBroker + SealLines(rest); }
  }

  /** The stream after one more frame opened. */
  function AfterOpen(c: Config, st: Stream, next: Opener, line: Line): Stream {
    WriteLocal(st.(opener := Some(next), phase := Idle), line)
  }

  lemma AfterOpenFields(c: Config, st: Stream, next: Opener, line: Line)
    requires st.localOpen ==> st.toLocal == []
    ensures var t := AfterOpen(c, st, next, line);
            && t == st.(opener := Some(next), phase := Idle, localOut := t.localOut, toLocal := t.toLocal)
            && Written(t) == Written(st) + [line] && (t.localOpen ==> t.toLocal == [])
  {
    WrittenOnly(st, Idle);
    WriteLocalAppends(st.(opener := Some(next), phase := Idle), line);
  }

  lemma AfterOpenOk(c: Config, st: Stream)
    requires Safe(c, st) && Flowing(c, st) && st.phase.Opening? && Open(c.cipher, st.opener.value, st.phase.frame).Some?
    ensures var r := Open(c.cipher, st.opener.value, st.phase.frame).value;
            var t := AfterOpen(c, st, r.0, c.text(r.1));
            Safe(c, t) && Flowing(c, t) && t.closed == st.closed && t.id == st.id
  {
    hide Decode, FrameAt, Bind, OpenAll, Decoded, Open, OpenDatas, SealLines;
    var o := st.opener.value;
    var r := Open(c.cipher, o, st.phase.frame).value;
    var line := c.text(r.1);
    var n := |Written(st)|;
    var data := st.arrived[n];
    var t := AfterOpen(c, st, r.0, line);
    hide SealedAt, Texts;
    ReadsOn(c, o, st.arrived[..n], Written(st), data);
    AfterOpenFields(c, st, r.0, line);
    hide Seals, Written, AfterOpen;
    assert st.arrived[..n + 1] == st.arrived[..n] + [data];
    assert |Written(t)| == n + 1;
    assert Reads(c, r.0.key, t.arrived[..n + 1], Written(t));
    assert OpenerOk(c, t);
    hide OpenerOk, Reads;
    assert Safe(c, t);
    hide Safe;
    assert FramesWait(t, n + 1);
    hide FramesWait;
  }

  lemma OpenSettledOk(c: Config, st: Stream)
    requires StreamOk(c, st) && st.phase.Opening? && st.opener.Some?
    ensures OutcomeOk(c, st, OnOpenSettled(c, st))
  {
    var o := st.opener.value;
    assert Open(c.cipher, o, st.phase.frame).Some? ==> Open(c.cipher, o, st.phase.frame).value.0.key == o.key;
    WrittenOnly(st, Idle);
    if Open(c.cipher, o, st.phase.frame).Some? && !st.closed {
      AfterOpenOk(c, st);
      hide Safe, Unbound, BeingAsked, Flowing, AfterOpen;
    }
  }

  lemma SealsOneMore(c: Config, key: Key, salt: Salt, sent: seq<Data>, lines: seq<Line>)
    requires Seals(c, key, salt, sent, lines) && |sent| < |lines|
    ensures Seals(c, key, salt, sent + [SealedAt(c, key, salt, |sent|, lines[|sent|])], lines)
  {
    hide SealedAt;
  }

  lemma DropsOne(lines: seq<Line>, k: nat, line: Line, rest: seq<Line>)
    requires k <= |lines| && lines[k..] == [line] + rest
    ensures k < |lines| && lines[k + 1..] == rest
  {
    assert |lines[k..]| == 1 + |rest|;
    assert lines[k + 1..] == lines[k..][1..];
  }

  /** The line in flight is the first one not yet sent. */
  lemma LineInFlight(c: Config, st: Stream)
    requires Flowing(c, st) && (st.phase.Sealing? || st.phase.Flushing?)
    ensures |st.sent| < |st.relayed|
    ensures st.relayed[|st.sent| + 1..] == (if st.phase.Flushing? then st.phase.held else []) + SealLines(st.jobs)
  {
    hide SealLines, FramesWait, OpenerOk, SealerOk, Written;
    var held := if st.phase.Flushing? then st.phase.held else [];
    assert Unsent(st.phase) + SealLines(st.jobs) == [st.phase.line] + (held + SealLines(st.jobs));
    DropsOne(st.relayed, |st.sent|, st.phase.line, held + SealLines(st.jobs));
  }

  /** The stream once the frame in flight went out. */
  lemma SendSealedOk(c: Config, st: Stream)
    requires Safe(c, st) && Flowing(c, st) && (st.phase.Sealing? || st.phase.Flushing?) && !st.closed
    ensures var t := SendSealed(st, st.phase.frame);
            && Safe(c, t) && t.closed == st.closed && t.id == st.id
            && ReadyToSeal(c, t, if st.phase.Flushing? then st.phase.held else [])
  {
    hide Decode, Encode, FrameAt, Bind, OpenAll, Decoded, Safe, OpenerOk, OpenDatas, SealLines, Unsent;
    var t := SendSealed(st, st.phase.frame);
    SendSealedSafe(c, st);
    LineInFlight(c, st);
    OpenerCarries(c, st, t);
    assert Written(t) == Written(st);
    hide Written;
  }

  lemma SendSealedSafe(c: Config, st: Stream)
    requires Safe(c, st) && Flowing(c, st) && (st.phase.Sealing? || st.phase.Flushing?) && !st.closed
    ensures Safe(c, SendSealed(st, st.phase.frame))
  {
    var t := SendSealed(st, st.phase.frame);
    var s := st.sealer.value;
    var line := st.phase.line;
    assert Written(t) == Written(st);
    assert st.phase.frame == FrameAt(c.cipher, s.key, S2C, s.salt, |st.sent|, c.utf8(line));
    assert t.sent == st.sent + [SealedAt(c, s.key, s.salt, |st.sent|, line)];
    assert st.relayed[|st.sent|] == st.relayed[|st.sent|..][0] == line;
    hide OpenDatas, SealLines, Bind, FrameAt, Reads, OpenAll, Decoded, Decode, Written, SealedAt;
    SealsOneMore(c, s.key, s.salt, st.sent, st.relayed);
    hide Seals;
  }

  lemma SealSettledOk(c: Config, st: Stream, sealed: bool)
    requires StreamOk(c, st) && (st.phase.Sealing? || st.phase.Flushing?) && st.sealer.Some?
    ensures OutcomeOk(c, st, OnSealSettled(c, st, sealed))
  {
    var t := SendSealed(st, st.phase.frame);
    if !st.closed { SendSealedOk(c, st); }
    WrittenOnly(st, Idle);
    WrittenOnly(t, Idle);
    assert t.sealer == st.sealer && t.closed == st.closed && t.id == st.id && (st.closed ==> t == st);
    hide OpenDatas, SealLines, Bind, FrameAt, Reads, OpenAll, Decoded, Decode, Written, Seals, SealedAt, SendSealed;
    if sealed && st.phase.Flushing? {
      FlushNextOk(c, t, st.phase.held);
      hide FlushNext;
    } else if sealed && !st.closed {
      assert Flowing(c, t.(phase := Idle));
    }
  }

  lemma WrittenOnly(st: Stream, phase: Phase)
    ensures Written(st.(phase := phase)) == Written(st)
  {
  }
}

/** The tunnel agent as it is written: a stream object whose callbacks update it in place, and the agent's
  own keyring and stream map. Every method is proved to do what the function of module TunnelAgent does. */
module TunnelObjects {
  import opened Options
  import opened Bytes
  import opened Frames
  import opened TunnelAgent
  import opened TunnelProofs
  import opened TunnelRuns

  /** `drop` results ask the agent to run `dropStream` on this stream's id. */
  class StreamObject {
    const config: Config
    const id: StreamId
    var opener: Option<Opener>
    var sealer: Option<Sealer>
    var device: Option<Device>
    var localOpen: bool
    var toLocal: seq<Line>
    var toBroker: seq<Line>
    var closed: bool
    var jobs: seq<Job>
    var phase: Phase
    var localOut: seq<Line>
    var sent: seq<Data>
    var told: Option<string>
    var arrived: seq<Data>
    var relayed: seq<Line>
    var admitted: bool

    ghost function View(): Stream
      reads this
    {
      Stream(id, opener, sealer, device, localOpen, toLocal, toBroker, closed, jobs, phase, localOut, sent, told, arrived, relayed, admitted)
    }

    constructor (config: Config, id: StreamId)
      ensures this.config == config && View() == NewStream(id)
    {
      this.config, this.id := config, id;
      opener, sealer, device, localOpen, toLocal, toBroker, closed := None, None, None, false, [], [], false;
      jobs, phase, localOut, sent, told, arrived, relayed, admitted := [], Idle, [], [], None, [], [], false;
    }

    method Write(line: Line)
      modifies this
      ensures View() == WriteLocal(old(View()), line)
    {
      if localOpen { localOut := localOut + [line]; } else { toLocal := toLocal + [line]; }
    }

    /** Sends what was held, in order. */
    method LocalOpened()
      modifies this
      ensures View() == OnLocalOpen(old(View()))
    {
      localOpen := true;
      var held := toLocal;
      toLocal := [];
      ghost var before := localOut;
      var i := 0;
      while i < |held|
        invariant 0 <= i <= |held|
        invariant View() == old(View()).(localOpen := true, toLocal := [], localOut := before + held[..i])
      {
        localOut := localOut + [held[i]];
        assert held[..i + 1] == held[..i] + [held[i]];
        i := i + 1;
      }
      assert held[..i] == held;
    }

    method LocalSaid(line: Line)
      modifies this
      ensures View() == OnLocalMessage(old(View()), line)
    {
      jobs, relayed := jobs + [SealJob(line)], relayed + [line];
    }

    method FrameArrived(data: Data)
      modifies this
      ensures View() == OnFrame(old(View()), data)
    {
      jobs, arrived := jobs + [OpenJob(data)], arrived + [data];
    }

    /** The next job of the chain, up to its first await. */
    method RunNext(keyring: seq<KeyEntry>) returns (drop: Option<string>)
      requires phase.Idle? && jobs != []
      modifies this
      ensures Outcome(View(), drop) == OnJobStart(config, old(View()), keyring)
    {
      hide Decode, FrameAt;
      var job := jobs[0];
      jobs := jobs[1..];
      match job
      case OpenJob(data) =>
        var frame := Decode(data);
        if frame.None? { return Some("malformed frame"); }
        if opener.Some? {
          phase := Opening(frame.value);
          return None;
        }
        drop := Try(keyring, 0, frame.value);
      case SealJob(line) =>
        if sealer.None? {
          toBroker := toBroker + [line];
          return None;
        }
        var r := Seal(config.cipher, sealer.value, config.utf8(line));
        if r.None? { return Some("seal failed"); }
        sealer, phase := Some(r.value.0), Sealing(line, r.value.1);
        drop := None;
    }

    method Try(keyring: seq<KeyEntry>, index: nat, frame: seq<Byte>) returns (drop: Option<string>)
      modifies this
      ensures Outcome(View(), drop) == TryFrom(old(View()), keyring, index, frame)
    {
      if index < |keyring| {
        phase, drop := Trying(index, keyring[index], frame), None;
      } else {
        phase, drop := Idle, Some("no matching pairing");
      }
    }

    method TrialSettled(keyring: seq<KeyEntry>, salt: Salt) returns (drop: Option<string>)
      requires phase.Trying?
      modifies this
      ensures Outcome(View(), drop) == OnTrialSettled(config, old(View()), keyring, salt)
    {
      hide Bind, LetThrough;
      var entry := phase.entry;
      var bound := Bind(config.cipher, entry.c2s, C2S, phase.frame);
      if bound.None? {
        drop := Try(keyring, phase.index + 1, phase.frame);
        return;
      }
      if closed {
        phase := Idle;
        return None;
      }
      opener, sealer, device := Some(bound.value.0), Some(Sealer(entry.s2c, S2C, salt, 0)), entry.device;
      var line := config.text(bound.value.1);
      if config.gated {
        phase := Asking(line);
        return None;
      }
      drop := Admit(line);
    }

    /** Writes the first line, then starts on what the relay said while the key was unknown. */
    method Admit(line: Line) returns (drop: Option<string>)
      requires sealer.Some?
      modifies this
      ensures Outcome(View(), drop) == LetThrough(config, old(View()), line)
    {
      hide FlushNext;
      admitted := true;
      Write(line);
      var held := toBroker;
      toBroker := [];
      drop := Flush(held);
    }

    method Flush(held: seq<Line>) returns (drop: Option<string>)
      requires sealer.Some?
      modifies this
      ensures Outcome(View(), drop) == FlushNext(config, old(View()), held)
    {
      hide FrameAt;
      if held == [] {
        phase := Idle;
        return None;
      }
      var r := Seal(config.cipher, sealer.value, config.utf8(held[0]));
      if r.None? {
        phase := Idle;
        return Some("open failed");
      }
      sealer, phase, drop := Some(r.value.0), Flushing(held[0], r.value.1, held[1..]), None;
    }

    method GateSettled(verdict: Verdict) returns (drop: Option<string>)
      requires phase.Asking? && sealer.Some?
      modifies this
      ensures Outcome(View(), drop) == OnGateSettled(config, old(View()), verdict)
    {
      hide LetThrough;
      match verdict
      case Threw => phase, drop := Idle, Some("open failed");
      case No => phase, drop := Idle, if closed then None else Some("not approved");
      case Yes =>
        if closed {
          phase := Idle;
          return None;
        }
        drop := Admit(phase.line);
    }

    method OpenSettled() returns (drop: Option<string>)
      requires phase.Opening? && opener.Some?
      modifies this
      ensures Outcome(View(), drop) == OnOpenSettled(config, old(View()))
    {
      hide Open;
      var r := Open(config.cipher, opener.value, phase.frame);
      phase := Idle;
      if r.None? { return Some("frame authentication failed"); }
      opener := Some(r.value.0);
      if !closed { Write(config.text(r.value.1)); }
      drop := None;
    }

    method SealSettled(sealed: bool) returns (drop: Option<string>)
      requires (phase.Sealing? || phase.Flushing?) && sealer.Some?
      modifies this
      ensures Outcome(View(), drop) == OnSealSettled(config, old(View()), sealed)
    {
      hide FlushNext, Encode;
      if !sealed {
        drop := Some(if phase.Sealing? then "seal failed" else "open failed");
        phase := Idle;
        return;
      }
      if !closed { sent := sent + [Encode(phase.frame)]; }
      if phase.Sealing? {
        phase := Idle;
        return None;
      }
      drop := Flush(phase.held);
    }
  }

  /** The agent's own tables: the keyring and the streams by id. Streams are held by value here. */
  class AgentObject {
    var streams: map<nat, Stream>
    var byId: map<StreamId, nat>
    var nextStream: nat
    var keyring: seq<KeyEntry>

    ghost function View(): Agent
      reads this
    {
      Agent(streams, byId, nextStream, keyring)
    }

    constructor ()
      ensures View() == START
    {
      streams, byId, nextStream, keyring := map[], map[], 0, [];
    }

    method OpenStream(id: StreamId)
      modifies this
      ensures View().streams == old(View()).streams[old(nextStream) := NewStream(id)]
      ensures View().byId == old(View()).byId[id := old(nextStream)]
      ensures nextStream == old(nextStream) + 1 && keyring == old(keyring)
    {
      streams, byId, nextStream := streams[nextStream := NewStream(id)], byId[id := nextStream], nextStream + 1;
    }

    method Drop(id: StreamId, reason: string, tellBroker: bool)
      modifies this
      ensures View() == DropStream(old(View()), id, reason, tellBroker)
    {
      if id !in byId || byId[id] !in streams || streams[byId[id]].closed { return; }
      var o := byId[id];
      streams := streams[o := Closed(streams[o], reason, tellBroker)];
      byId := byId - {id};
    }

    method AddSessionKeys(entry: KeyEntry)
      modifies this
      ensures View() == old(View()).(keyring := AddKeys(old(keyring), entry))
    {
      keyring := keyring + [entry];
      if |keyring| > MAX_KEYRING { keyring := keyring[1..]; }
    }

    /** Runs backwards, splicing entries out as it goes. */
    method RemoveFromKeyring(gone: Device) returns (removed: nat)
      modifies this
      ensures View() == old(View()).(keyring := WithoutDevice(old(keyring), gone))
      ensures removed == |old(keyring)| - |keyring|
    {
      removed := 0;
      var i := |keyring|;
      assert keyring[..i] == keyring;
      while i > 0
        invariant 0 <= i <= |keyring| && i <= |old(keyring)|
        invariant keyring == old(keyring)[..i] + WithoutDevice(old(keyring)[i..], gone)
        invariant removed == |old(keyring)| - |keyring|
        invariant View() == old(View()).(keyring := keyring)
      {
        i := i - 1;
        ghost var was := old(keyring);
        assert was[i..][1..] == was[i + 1..];
        assert was[..i + 1] == was[..i] + [was[i]];
        assert keyring[i] == was[i];
        if keyring[i].device == Some(gone) {
          assert keyring[i + 1..] == WithoutDevice(was[i + 1..], gone);
          assert keyring[..i] == was[..i];
          keyring := keyring[..i] + keyring[i + 1..];
          removed := removed + 1;
        }
      }
      assert old(keyring)[0..] == old(keyring);
    }

    method RemoveSessionKeys(c: Config, gone: Device) returns (removed: nat)
      requires Inv(c, View())
      modifies this
      ensures View() == RemoveKeys(old(View()), gone)
      ensures removed == |old(keyring)| - |keyring|
    {
      ghost var was := View();
      removed := RemoveFromKeyring(gone);
      IdsAreOk(c, was);
      hide WithoutDevice, Inv, Progress, RemoveKeys, DropStream, IdOk;
      var todo := byId.Keys;
      ghost var ring := keyring;
      NoProgress(was, View(), gone);
      while todo != {}
        invariant Progress(was, View(), gone, todo) && keyring == ring
        decreases |todo|
      {
        var id :| id in todo;
        OneMoreId(was, View(), gone, todo, id);
        if IsBoundTo(id, gone) { Drop(id, "revoked", true); }
        todo := todo - {id};
      }
      AllIds(was, View(), gone);
    }

    predicate IsBoundTo(id: StreamId, gone: Device)
      reads this
    {
      id in byId && byId[id] in streams && streams[byId[id]].device == Some(gone)
    }
  }

  lemma IdsAreOk(c: Config, a: Agent)
    requires Inv(c, a)
    ensures forall id | id in a.byId :: IdOk(a, id)
  {
  }

  /** The record is dropped once its id has been looked at. */
  predicate DropsNow(was: Agent, o: nat, gone: Device, todo: set<StreamId>)
    requires o in was.streams
  {
    BoundLive(was, o, gone) && was.streams[o].id !in todo
  }

  predicate KeepsId(was: Agent, id: StreamId, gone: Device, todo: set<StreamId>)
    requires id in was.byId
  {
    was.byId[id] in was.streams && !DropsNow(was, was.byId[id], gone, todo)
  }

  /** What the loop has done when the ids in `todo` are all that is left to look at. */
  ghost predicate Progress(was: Agent, a: Agent, gone: Device, todo: set<StreamId>) {
    && todo <= was.byId.Keys && a.nextStream == was.nextStream && a.streams.Keys == was.streams.Keys
    && (forall o | o in was.streams :: a.streams[o] == if DropsNow(was, o, gone, todo) then Closed(was.streams[o], "revoked", true) else was.streams[o])
    && (forall id :: id in a.byId <==> id in was.byId && KeepsId(was, id, gone, todo))
    && (forall id | id in a.byId :: a.byId[id] == was.byId[id])
  }

  lemma NoProgress(was: Agent, a: Agent, gone: Device)
    requires a == was.(keyring := a.keyring) && forall id | id in was.byId :: IdOk(was, id)
    ensures Progress(was, a, gone, was.byId.Keys)
  {
    forall o | o in was.streams ensures !DropsNow(was, o, gone, was.byId.Keys) {}
    forall id | id in was.byId ensures KeepsId(was, id, gone, was.byId.Keys) { assert IdOk(was, id); }
  }

  lemma OneMoreId(was: Agent, a: Agent, gone: Device, todo: set<StreamId>, id: StreamId)
    requires Progress(was, a, gone, todo) && id in todo && forall i | i in was.byId :: IdOk(was, i)
    ensures id in a.byId && a.byId[id] in a.streams
    ensures var b := if a.streams[a.byId[id]].device == Some(gone) then DropStream(a, id, "revoked", true) else a;
            Progress(was, b, gone, todo - {id})
  {
    assert IdOk(was, id);
    var p := was.byId[id];
    assert KeepsId(was, id, gone, todo);
    assert !DropsNow(was, p, gone, todo) && a.streams[p] == was.streams[p];
    var drops := a.streams[p].device == Some(gone);
    var b := if drops then DropStream(a, id, "revoked", true) else a;
    assert drops <==> DropsNow(was, p, gone, todo - {id});
    forall o | o in was.streams && o != p ensures DropsNow(was, o, gone, todo - {id}) <==> DropsNow(was, o, gone, todo) {}
    forall i | i in was.byId ensures KeepsId(was, i, gone, todo - {id}) <==> KeepsId(was, i, gone, todo) && !(i == id && drops) {
      assert IdOk(was, i);
    }
    hide DropsNow, KeepsId, IdOk;
  }

  lemma AllIds(was: Agent, a: Agent, gone: Device)
    requires Progress(was, a, gone, {}) && a.keyring == WithoutDevice(was.keyring, gone) && forall id | id in was.byId :: IdOk(was, id)
    ensures a == RemoveKeys(was, gone)
  {
    hide WithoutDevice;
    var b := RemoveKeys(was, gone);
    forall id | id in was.byId ensures id in a.byId <==> id in b.byId { assert IdOk(was, id); }
    assert a.byId == b.byId;
    assert a.streams == b.streams;
  }
}
