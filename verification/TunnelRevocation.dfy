/** What forgetting a device's keys reaches, and what reusing a live stream's id would break. */
module TunnelRevocation {
  import opened Options
  import opened Bytes
  import opened Frames
  import opened TunnelAgent
  import opened TunnelProofs
  import opened TunnelRuns

  /** Neither bound to the device nor about to be. */
  predicate StreamClean(c: Config, st: Stream, gone: Device) {
    !st.closed ==> st.device != Some(gone) && !Winning(c, st, gone)
  }

  /** A trial of one of the device's keys is in flight, and it will succeed. */
  predicate Winning(c: Config, st: Stream, gone: Device) {
    st.phase.Trying? && st.phase.entry.device == Some(gone) && Bind(c.cipher, st.phase.entry.c2s, C2S, st.phase.frame).Some?
  }

  predicate RingClean(keyring: seq<KeyEntry>, gone: Device) {
    forall i | 0 <= i < |keyring| :: keyring[i].device != Some(gone)
  }

  predicate Clean(c: Config, a: Agent, gone: Device) {
    RingClean(a.keyring, gone) && forall o | o in a.streams :: StreamClean(c, a.streams[o], gone)
  }

  /** No live stream belongs to the device. */
  predicate Shut(a: Agent, gone: Device) {
    forall o | o in a.streams :: a.streams[o].closed || a.streams[o].device != Some(gone)
  }

  lemma JobStaysClean(c: Config, st: Stream, keyring: seq<KeyEntry>, gone: Device)
    requires StreamClean(c, st, gone) && RingClean(keyring, gone) && st.phase.Idle? && st.jobs != []
    ensures StreamClean(c, OnJobStart(c, st, keyring).stream, gone)
  {
    hide Decode, FrameAt, Bind;
  }

  lemma TrialStaysClean(c: Config, st: Stream, keyring: seq<KeyEntry>, salt: Salt, gone: Device)
    requires StreamClean(c, st, gone) && RingClean(keyring, gone) && st.phase.Trying?
    ensures StreamClean(c, OnTrialSettled(c, st, keyring, salt).stream, gone)
  {
    hide Decode, FrameAt, Bind;
  }

  lemma GateStaysClean(c: Config, st: Stream, verdict: Verdict, gone: Device)
    requires StreamClean(c, st, gone) && st.phase.Asking? && st.sealer.Some?
    ensures StreamClean(c, OnGateSettled(c, st, verdict).stream, gone)
  {
    hide Decode, FrameAt, Bind;
  }

  lemma PutStaysClean(c: Config, a: Agent, o: nat, r: Outcome, gone: Device)
    requires Clean(c, a, gone) && o in a.streams && StreamClean(c, r.stream, gone)
    ensures Clean(c, Put(a, o, r), gone)
  {
    hide Bind;
    forall x | x in Put(a, o, r).streams ensures StreamClean(c, Put(a, o, r).streams[x], gone) {
      PutLeaves(a, o, r, x);
      hide Put;
      if x != o { assert StreamClean(c, a.streams[x], gone); }
    }
  }

  lemma StepStaysClean(c: Config, a: Agent, e: Event, gone: Device)
    requires Enabled(a, e) && Clean(c, a, gone) && !(e.KeysAdded? && e.entry.device == Some(gone))
    ensures Clean(c, Step(c, a, e), gone)
  {
    hide Decode, FrameAt, Bind, Put, OnJobStart, OnTrialSettled, OnGateSettled, OnSealSettled, Clean, DropAll, RemoveKeys, DropStream, OnOpenSettled;
    match e
    case FrameArrives(id, data) =>
      if id in a.byId && a.byId[id] in a.streams && !a.streams[a.byId[id]].closed {
        LookupClean(c, a, a.byId[id], gone);
        PutStaysClean(c, a, a.byId[id], Keep(OnFrame(a.streams[a.byId[id]], data)), gone);
      }
    case LocalOpens(x) => LookupClean(c, a, x, gone); PutStaysClean(c, a, x, Keep(OnLocalOpen(a.streams[x])), gone);
    case LocalSays(x, line) => LookupClean(c, a, x, gone); PutStaysClean(c, a, x, Keep(OnLocalMessage(a.streams[x], line)), gone);
    case JobStarts(x) =>
      LookupClean(c, a, x, gone); JobStaysClean(c, a.streams[x], a.keyring, gone);
      PutStaysClean(c, a, x, OnJobStart(c, a.streams[x], a.keyring), gone);
    case TrialSettles(x, salt) =>
      LookupClean(c, a, x, gone); TrialStaysClean(c, a.streams[x], a.keyring, salt, gone);
      PutStaysClean(c, a, x, OnTrialSettled(c, a.streams[x], a.keyring, salt), gone);
    case GateSettles(x, verdict) =>
      LookupClean(c, a, x, gone); GateStaysClean(c, a.streams[x], verdict, gone);
      PutStaysClean(c, a, x, OnGateSettled(c, a.streams[x], verdict), gone);
    case OpenSettles(x) =>
      LookupClean(c, a, x, gone); OpenStaysClean(c, a.streams[x], gone);
      PutStaysClean(c, a, x, OnOpenSettled(c, a.streams[x]), gone);
    case SealSettles(x, sealed) =>
      LookupClean(c, a, x, gone); SealAdmitsNobody(c, a.streams[x], sealed);
      PutStaysClean(c, a, x, OnSealSettled(c, a.streams[x], sealed), gone);
    case _ => MapStepsStayClean(c, a, e, gone);
  }

  lemma OpenStaysClean(c: Config, st: Stream, gone: Device)
    requires StreamClean(c, st, gone) && st.phase.Opening? && st.opener.Some?
    ensures StreamClean(c, OnOpenSettled(c, st).stream, gone)
  {
    hide Bind, Open;
  }

  lemma LookupClean(c: Config, a: Agent, o: nat, gone: Device)
    requires Clean(c, a, gone) && o in a.streams
    ensures StreamClean(c, a.streams[o], gone) && RingClean(a.keyring, gone)
  {
  }

  lemma MapStepsStayClean(c: Config, a: Agent, e: Event, gone: Device)
    requires Enabled(a, e) && Clean(c, a, gone) && !(e.KeysAdded? && e.entry.device == Some(gone))
    requires e.StreamOpens? || e.StreamCloses? || e.TornDown? || e.KeysAdded? || e.KeysRemoved? || e.LocalCloses?
    ensures Clean(c, Step(c, a, e), gone)
  {
    hide Bind, WithoutDevice;
    var b := Step(c, a, e);
    forall x | x in b.streams ensures StreamClean(c, b.streams[x], gone) {
      if x in a.streams { assert StreamClean(c, a.streams[x], gone); }
    }
    if e.KeysRemoved? {
      WithoutDeviceFacts(a.keyring, e.gone);
      forall i | 0 <= i < |b.keyring| ensures b.keyring[i].device != Some(gone) { assert b.keyring[i] in b.keyring; }
    }
  }

  predicate NeverReadded(es: seq<Event>, gone: Device) {
    forall i | 0 <= i < |es| :: !(es[i].KeysAdded? && es[i].entry.device == Some(gone))
  }

  lemma {:induction false} RunsStayClean(c: Config, a: Agent, es: seq<Event>, gone: Device)
    requires AllEnabled(c, a, es) && Clean(c, a, gone) && NeverReadded(es, gone)
    ensures Clean(c, Exec(c, a, es), gone)
    decreases |es|
  {
    if es != [] {
      assert NeverReadded(es[1..], gone) by {
        forall i | 0 <= i < |es[1..]| ensures !(es[1..][i].KeysAdded? && es[1..][i].entry.device == Some(gone)) { assert es[1..][i] == es[i + 1]; }
      }
      assert !(es[0].KeysAdded? && es[0].entry.device == Some(gone));
      hide Step, Enabled, Clean, NeverReadded;
      StepStaysClean(c, a, es[0], gone);
      RunsStayClean(c, Step(c, a, es[0]), es[1..], gone);
    }
  }

  /** A live stream is trying one of the device's keys, and that trial will succeed. */
  predicate BindInFlight(c: Config, a: Agent, gone: Device) {
    exists o | o in a.streams :: !a.streams[o].closed && Winning(c, a.streams[o], gone)
  }

  lemma RemovalCleans(c: Config, a: Agent, gone: Device)
    requires Inv(c, a)
    ensures Shut(RemoveKeys(a, gone), gone) && RingClean(RemoveKeys(a, gone).keyring, gone)
    ensures Clean(c, RemoveKeys(a, gone), gone) <==> !BindInFlight(c, a, gone)
  {
    hide Bind, WithoutDevice, StreamOk;
    var b := RemoveKeys(a, gone);
    WithoutDeviceFacts(a.keyring, gone);
    forall i | 0 <= i < |b.keyring| ensures b.keyring[i].device != Some(gone) { assert b.keyring[i] in b.keyring; }
    forall x | x in b.streams ensures b.streams[x].closed || b.streams[x].device != Some(gone) { assert RecordOk(c, a, x); }
    hide Winning;
    forall x | x in a.streams ensures StreamClean(c, b.streams[x], gone) <==> a.streams[x].closed || !Winning(c, a.streams[x], gone) {
      assert RecordOk(c, a, x);
      RemovalAt(c, a, x, gone);
    }
  }

  /** Being closed as revoked, a bound stream is not trying any key. */
  lemma RemovalAt(c: Config, a: Agent, x: nat, gone: Device)
    requires Inv(c, a) && x in a.streams && RecordOk(c, a, x)
    ensures StreamClean(c, RemoveKeys(a, gone).streams[x], gone) <==> a.streams[x].closed || !Winning(c, a.streams[x], gone)
  {
    hide Bind, WithoutDevice, Safe, BeingAsked, Flowing, Inv, FramesWait, SealLines;
    var st := a.streams[x];
    assert !st.closed && Winning(c, st, gone) ==> Unbound(st) by { hide Winning; TryingIsUnbound(c, st); }
  }

  lemma TryingIsUnbound(c: Config, st: Stream)
    requires StreamOk(c, st)
    ensures !st.closed && st.phase.Trying? ==> Unbound(st)
  {
    hide Safe, FramesWait, OpenerOk, SealerOk, Bind, Decode;
  }

  lemma CleanIsShut(c: Config, a: Agent, gone: Device)
    requires Clean(c, a, gone)
    ensures Shut(a, gone)
  {
    hide Winning;
    forall x | x in a.streams ensures a.streams[x].closed || a.streams[x].device != Some(gone) { assert StreamClean(c, a.streams[x], gone); }
  }

  /** The stream, bound by the trial that was in flight. */
  lemma WinningTrialBinds(c: Config, a: Agent, o: nat, gone: Device, salt: Salt)
    requires Inv(c, a) && o in a.streams && !a.streams[o].closed && Winning(c, a.streams[o], gone)
    ensures var b := RemoveKeys(a, gone);
            Enabled(b, TrialSettles(o, salt)) && !Shut(Step(c, b, TrialSettles(o, salt)), gone)
  {
    var b := RemoveKeys(a, gone);
    var st := a.streams[o];
    TrialSurvivesRemoval(c, a, o, gone);
    assert st.phase.Trying? && Bind(c.cipher, st.phase.entry.c2s, C2S, st.phase.frame).Some? && st.phase.entry.device == Some(gone);
    hide Bind, Inv, Winning, Put, RemoveKeys, OnTrialSettled, Step, Enabled;
    var r := OnTrialSettled(c, st, b.keyring, salt);
    TrialBinds(c, st, b.keyring, salt);
    PutKeepsOpen(b, o, r);
    TrialStepIsPut(c, b, o, salt);
  }

  lemma TrialStepIsPut(c: Config, b: Agent, o: nat, salt: Salt)
    requires o in b.streams && b.streams[o].phase.Trying?
    ensures Enabled(b, TrialSettles(o, salt))
    ensures Step(c, b, TrialSettles(o, salt)) == Put(b, o, OnTrialSettled(c, b.streams[o], b.keyring, salt))
  {
    hide OnTrialSettled, Put;
  }

  lemma TrialSurvivesRemoval(c: Config, a: Agent, o: nat, gone: Device)
    requires Inv(c, a) && o in a.streams && !a.streams[o].closed && Winning(c, a.streams[o], gone)
    ensures o in RemoveKeys(a, gone).streams && RemoveKeys(a, gone).streams[o] == a.streams[o]
  {
    assert RecordOk(c, a, o);
    TryingIsUnbound(c, a.streams[o]);
    hide Bind, WithoutDevice, StreamOk, Inv, FramesWait;
  }

  lemma TrialBinds(c: Config, st: Stream, keyring: seq<KeyEntry>, salt: Salt)
    requires st.phase.Trying? && Bind(c.cipher, st.phase.entry.c2s, C2S, st.phase.frame).Some? && !st.closed
    ensures var r := OnTrialSettled(c, st, keyring, salt);
            r.stream.device == st.phase.entry.device && !r.stream.closed && r.drop.None?
  {
    hide Bind, FrameAt;
  }

  lemma PutKeepsOpen(a: Agent, o: nat, r: Outcome)
    requires o in a.streams && r.drop.None?
    ensures o in Put(a, o, r).streams && Put(a, o, r).streams[o] == r.stream
  {
  }

  /** Main result: after `removeSessionKeys`, no stream of that device is live, and none will be for as long
    * as its keys are not added again, exactly when no bind to one of its keys was in flight. Such a bind is
    * not called back: it goes on to bind the stream to the device that was just removed. */
  lemma RemovalIsFinalUnlessBinding(c: Config, a: Agent, gone: Device)
    requires Inv(c, a)
    ensures Shut(RemoveKeys(a, gone), gone)
    ensures (forall es | AllEnabled(c, RemoveKeys(a, gone), es) && NeverReadded(es, gone) :: Shut(Exec(c, RemoveKeys(a, gone), es), gone))
            <==> !BindInFlight(c, a, gone)
  {
    var b := RemoveKeys(a, gone);
    RemovalCleans(c, a, gone);
    hide RemoveKeys, Clean, Winning, Inv;
    if !BindInFlight(c, a, gone) {
      forall es | AllEnabled(c, b, es) && NeverReadded(es, gone) ensures Shut(Exec(c, b, es), gone) {
        RunsStayClean(c, b, es, gone);
        CleanIsShut(c, Exec(c, b, es), gone);
      }
    } else {
      var o :| o in a.streams && !a.streams[o].closed && Winning(c, a.streams[o], gone);
      var salt: Salt := seq(16, i => 0);
      WinningTrialBinds(c, a, o, gone, salt);
      var e := TrialSettles(o, salt);
      hide Step, Enabled, Shut;
      assert [e][1..] == [] && AllEnabled(c, Step(c, b, e), []);
      assert AllEnabled(c, b, [e]) && NeverReadded([e], gone);
      assert Exec(c, b, [e]) == Step(c, b, e);
    }
  }

  lemma Prepend(c: Config, a: Agent, e: Event, rest: seq<Event>)
    requires Enabled(a, e) && AllEnabled(c, Step(c, a, e), rest)
    ensures AllEnabled(c, a, [e] + rest) && Exec(c, a, [e] + rest) == Exec(c, Step(c, a, e), rest)
  {
    hide Step, Enabled;
    assert ([e] + rest)[1..] == rest;
  }

  /** An agent with one key and one stream, which has received these frames and has not looked at any yet. */
  function Waiting(entry: KeyEntry, id: StreamId, datas: seq<Data>): Agent {
    Agent(map[0 := NewStream(id).(arrived := datas, jobs := OpenJobs(datas))], map[id := 0], 1, [entry])
  }

  function OpenJobs(datas: seq<Data>): seq<Job> {
    if datas == [] then [] else OpenJobs(datas[..|datas| - 1]) + [OpenJob(datas[|datas| - 1])]
  }

  lemma OneFrameWaits(c: Config, entry: KeyEntry, id: StreamId, data: Data)
    ensures var es := [KeysAdded(entry), StreamOpens(id), FrameArrives(id, data)];
            AllEnabled(c, START, es) && Exec(c, START, es) == Waiting(entry, id, [data])
  {
    var a1 := Step(c, START, KeysAdded(entry));
    assert a1 == Agent(map[], map[], 0, [entry]);
    var a2 := Step(c, a1, StreamOpens(id));
    assert a2 == Waiting(entry, id, []);
    FrameWaits(c, entry, id, [], data);
    assert [] + [data] == [data];
    hide Step;
    Prepend(c, a2, FrameArrives(id, data), []);
    Prepend(c, a1, StreamOpens(id), [FrameArrives(id, data)]);
    Prepend(c, START, KeysAdded(entry), [StreamOpens(id), FrameArrives(id, data)]);
  }

  lemma FrameWaits(c: Config, entry: KeyEntry, id: StreamId, datas: seq<Data>, data: Data)
    ensures Step(c, Waiting(entry, id, datas), FrameArrives(id, data)) == Waiting(entry, id, datas + [data])
  {
    assert (datas + [data])[..|datas|] == datas;
    assert OpenJobs(datas + [data]) == OpenJobs(datas) + [OpenJob(data)];
  }

  /** The first frame's trial is in flight. */
  lemma TrialStarts(c: Config, entry: KeyEntry, id: StreamId, data: Data, frame: seq<Byte>, rest: seq<Job>, st: Stream)
    requires Decode(data) == Some(frame) && st.opener.None? && st.phase.Idle? && st.jobs == [OpenJob(data)] + rest
    ensures OnJobStart(c, st, [entry]) == Keep(st.(jobs := rest, phase := Trying(0, entry, frame)))
  {
    hide Decode;
    assert st.jobs[1..] == rest;
  }

  /** The run that shows the condition matters: a frame under one of the device's keys has started its trial
    * when the device's keys are removed. The trial goes on to bind the stream to the device. */
  lemma RemovalDuringTrial(c: Config, entry: KeyEntry, gone: Device, id: StreamId, data: Data, frame: seq<Byte>, salt: Salt)
    requires entry.device == Some(gone) && Decode(data) == Some(frame) && Bind(c.cipher, entry.c2s, C2S, frame).Some?
    ensures var es := [KeysAdded(entry), StreamOpens(id), FrameArrives(id, data), JobStarts(0)];
            && AllEnabled(c, START, es) && BindInFlight(c, Exec(c, START, es), gone)
            && var b := RemoveKeys(Exec(c, START, es), gone);
               Enabled(b, TrialSettles(0, salt)) && !Shut(Step(c, b, TrialSettles(0, salt)), gone)
  {
    OneFrameWaits(c, entry, id, data);
    var a := Waiting(entry, id, [data]);
    var b := Step(c, a, JobStarts(0));
    assert b.streams.Keys == {0} && Winning(c, b.streams[0], gone) && !b.streams[0].closed && Enabled(a, JobStarts(0)) by {
      assert [data][..0] == [] && OpenJobs([data]) == [OpenJob(data)];
      TrialStarts(c, entry, id, data, frame, [], a.streams[0]);
      hide Decode, Bind, OnJobStart;
    }
    var es := [KeysAdded(entry), StreamOpens(id), FrameArrives(id, data)];
    hide Step, Enabled, Winning, Waiting, RemoveKeys, Shut;
    Follow(c, START, es, JobStarts(0));
    assert es + [JobStarts(0)] == [KeysAdded(entry), StreamOpens(id), FrameArrives(id, data), JobStarts(0)];
    RunsKeepInv(c, START, es + [JobStarts(0)]);
    WinningTrialBinds(c, b, 0, gone, salt);
  }

  /** One more event at the end of a run. */
  lemma {:induction false} Follow(c: Config, a: Agent, es: seq<Event>, e: Event)
    requires AllEnabled(c, a, es) && Enabled(Exec(c, a, es), e)
    ensures AllEnabled(c, a, es + [e]) && Exec(c, a, es + [e]) == Step(c, Exec(c, a, es), e)
    decreases |es|
  {
    hide Step, Enabled;
    if es == [] {
      assert es + [e] == [e] && [e][1..] == [];
    } else {
      Follow(c, Step(c, a, es[0]), es[1..], e);
      assert (es + [e])[1..] == es[1..] + [e];
    }
  }

  // ---------------------------------------------------------------------------
  // Whose key binds
  // ---------------------------------------------------------------------------

  function AddedBy(es: seq<Event>): set<KeyEntry> {
    if es == [] then {} else (if es[0].KeysAdded? then {es[0].entry} else {}) + AddedBy(es[1..])
  }

  /** The stream reads and writes under the two keys of one known entry, and carries that entry's device. */
  predicate StreamKnown(st: Stream, known: set<KeyEntry>) {
    && (st.phase.Trying? ==> st.phase.entry in known)
    && (st.opener.Some? <==> st.sealer.Some?)
    && (st.opener.Some? ==> KeyEntry(st.opener.value.key, st.sealer.value.key, st.device) in known)
  }

  predicate RingKnown(keyring: seq<KeyEntry>, known: set<KeyEntry>) {
    forall i | 0 <= i < |keyring| :: keyring[i] in known
  }

  predicate Known(a: Agent, known: set<KeyEntry>) {
    RingKnown(a.keyring, known) && forall o | o in a.streams :: StreamKnown(a.streams[o], known)
  }

  lemma LookupKnown(a: Agent, o: nat, known: set<KeyEntry>)
    requires Known(a, known) && o in a.streams
    ensures StreamKnown(a.streams[o], known) && RingKnown(a.keyring, known)
  {
  }

  lemma PutKnown(a: Agent, o: nat, r: Outcome, known: set<KeyEntry>)
    requires Known(a, known) && o in a.streams && StreamKnown(r.stream, known)
    ensures Known(Put(a, o, r), known)
  {
    forall x | x in Put(a, o, r).streams ensures StreamKnown(Put(a, o, r).streams[x], known) {
      PutLeaves(a, o, r, x);
      hide Put;
      if x != o { assert StreamKnown(a.streams[x], known); }
    }
  }

  lemma JobKnown(c: Config, st: Stream, keyring: seq<KeyEntry>, known: set<KeyEntry>)
    requires StreamKnown(st, known) && RingKnown(keyring, known) && st.phase.Idle? && st.jobs != []
    ensures StreamKnown(OnJobStart(c, st, keyring).stream, known)
  {
    hide Decode, FrameAt;
  }

  lemma TrialKnown(c: Config, st: Stream, keyring: seq<KeyEntry>, salt: Salt, known: set<KeyEntry>)
    requires StreamKnown(st, known) && RingKnown(keyring, known) && st.phase.Trying?
    ensures StreamKnown(OnTrialSettled(c, st, keyring, salt).stream, known)
  {
    assert Bind(c.cipher, st.phase.entry.c2s, C2S, st.phase.frame).Some? ==>
      Bind(c.cipher, st.phase.entry.c2s, C2S, st.phase.frame).value.0.key == st.phase.entry.c2s;
    hide Bind, FrameAt;
  }

  lemma GateKnown(c: Config, st: Stream, verdict: Verdict, known: set<KeyEntry>)
    requires StreamKnown(st, known) && st.phase.Asking? && st.sealer.Some?
    ensures StreamKnown(OnGateSettled(c, st, verdict).stream, known)
  {
    hide FrameAt;
  }

  lemma OpenKnown(c: Config, st: Stream, known: set<KeyEntry>)
    requires StreamKnown(st, known) && st.phase.Opening? && st.opener.Some?
    ensures StreamKnown(OnOpenSettled(c, st).stream, known)
  {
    hide ReadBigEndian;
  }

  lemma SealKnown(c: Config, st: Stream, sealed: bool, known: set<KeyEntry>)
    requires StreamKnown(st, known) && (st.phase.Sealing? || st.phase.Flushing?) && st.sealer.Some?
    ensures StreamKnown(OnSealSettled(c, st, sealed).stream, known)
  {
    hide FrameAt, Encode;
  }

  lemma MapStepsKnown(c: Config, a: Agent, e: Event, known: set<KeyEntry>)
    requires Enabled(a, e) && Known(a, known) && (e.KeysAdded? ==> e.entry in known)
    requires e.StreamOpens? || e.StreamCloses? || e.TornDown? || e.KeysAdded? || e.KeysRemoved? || e.LocalCloses?
    ensures Known(Step(c, a, e), known)
  {
    hide WithoutDevice;
    var b := Step(c, a, e);
    forall x | x in b.streams ensures StreamKnown(b.streams[x], known) {
      if x in a.streams { assert StreamKnown(a.streams[x], known); }
    }
    if e.KeysRemoved? {
      WithoutDeviceFacts(a.keyring, e.gone);
      forall i | 0 <= i < |b.keyring| ensures b.keyring[i] in known { assert b.keyring[i] in b.keyring; }
    }
  }

  lemma StepKnown(c: Config, a: Agent, e: Event, known: set<KeyEntry>)
    requires Enabled(a, e) && Known(a, known) && (e.KeysAdded? ==> e.entry in known)
    ensures Known(Step(c, a, e), known)
  {
    hide Decode, FrameAt, Bind, Put, OnJobStart, OnTrialSettled, OnGateSettled, OnSealSettled, OnOpenSettled, Known, DropAll, RemoveKeys, DropStream;
    match e
    case FrameArrives(id, data) =>
      if id in a.byId && a.byId[id] in a.streams && !a.streams[a.byId[id]].closed {
        LookupKnown(a, a.byId[id], known);
        PutKnown(a, a.byId[id], Keep(OnFrame(a.streams[a.byId[id]], data)), known);
      }
    case LocalOpens(x) => LookupKnown(a, x, known); PutKnown(a, x, Keep(OnLocalOpen(a.streams[x])), known);
    case LocalSays(x, line) => LookupKnown(a, x, known); PutKnown(a, x, Keep(OnLocalMessage(a.streams[x], line)), known);
    case JobStarts(x) =>
      LookupKnown(a, x, known); JobKnown(c, a.streams[x], a.keyring, known);
      PutKnown(a, x, OnJobStart(c, a.streams[x], a.keyring), known);
    case TrialSettles(x, salt) =>
      LookupKnown(a, x, known); TrialKnown(c, a.streams[x], a.keyring, salt, known);
      PutKnown(a, x, OnTrialSettled(c, a.streams[x], a.keyring, salt), known);
    case GateSettles(x, verdict) =>
      LookupKnown(a, x, known); GateKnown(c, a.streams[x], verdict, known);
      PutKnown(a, x, OnGateSettled(c, a.streams[x], verdict), known);
    case OpenSettles(x) =>
      LookupKnown(a, x, known); OpenKnown(c, a.streams[x], known);
      PutKnown(a, x, OnOpenSettled(c, a.streams[x]), known);
    case SealSettles(x, sealed) =>
      LookupKnown(a, x, known); SealKnown(c, a.streams[x], sealed, known);
      PutKnown(a, x, OnSealSettled(c, a.streams[x], sealed), known);
    case _ => MapStepsKnown(c, a, e, known);
  }

  lemma {:induction false} RunsKnown(c: Config, a: Agent, es: seq<Event>, known: set<KeyEntry>)
    requires AllEnabled(c, a, es) && Known(a, known) && AddedBy(es) <= known
    ensures Known(Exec(c, a, es), known)
    decreases |es|
  {
    if es != [] {
      assert es[0].KeysAdded? ==> es[0].entry in AddedBy(es);
      hide Step, Enabled, Known;
      StepKnown(c, a, es[0], known);
      RunsKnown(c, Step(c, a, es[0]), es[1..], known);
    }
  }

  /** Main result: one entry that was added to the keyring provides the key a stream is read under, the key
    * it is written under, and the device it is taken for. */
  lemma OneKnownEntryBinds(c: Config, es: seq<Event>, o: nat)
    requires AllEnabled(c, START, es) && o in Exec(c, START, es).streams
    ensures var st := Exec(c, START, es).streams[o];
            && (st.opener.Some? <==> st.sealer.Some?)
            && (st.opener.Some? ==> KeyEntry(st.opener.value.key, st.sealer.value.key, st.device) in AddedBy(es))
  {
    RunsKnown(c, START, es, AddedBy(es));
    LookupKnown(Exec(c, START, es), o, AddedBy(es));
  }

  // ---------------------------------------------------------------------------
  // Why an open stream's id must not be reused
  // ---------------------------------------------------------------------------

  /** A run in which the broker may open a stream under any id; nothing when an event cannot happen. */
  function RunAnyway(c: Config, a: Agent, es: seq<Event>): Option<Agent>
    decreases |es|
  {
    if es == [] then Some(a)
    else if !es[0].StreamOpens? && !Enabled(a, es[0]) then None
    else RunAnyway(c, Step(c, a, es[0]), es[1..])
  }

  lemma RunOne(c: Config, a: Agent, e: Event, rest: seq<Event>)
    requires e.StreamOpens? || Enabled(a, e)
    ensures RunAnyway(c, a, [e] + rest) == RunAnyway(c, Step(c, a, e), rest)
  {
    hide Step, Enabled;
    assert ([e] + rest)[1..] == rest;
  }

  lemma RefusalHitsTheOther(c: Config, a: Agent, id: StreamId, o: nat)
    requires Inv(c, a) && id in a.byId && a.byId[id] == o && a.streams[o].phase.Asking? && a.streams[o].sealer.Some?
    ensures var a1 := Step(c, a, StreamOpens(id));
            && Enabled(a1, GateSettles(o, No))
            && o in Step(c, a1, GateSettles(o, No)).streams
            && Step(c, a1, GateSettles(o, No)).streams[o] == a.streams[o].(phase := Idle)
  {
    StoredUnder(c, a, id, o);
    hide Inv, OnGateSettled, NewStream;
    var st := a.streams[o];
    RefusalAsksToDrop(c, st);
    var a1 := Step(c, a, StreamOpens(id));
    GateStepIsPut(c, a1, o, No);
    DropTakesTheNewer(a1, o, Outcome(st.(phase := Idle), Some("not approved")), a.nextStream);
    hide Step, Enabled, Put;
  }

  lemma StoredUnder(c: Config, a: Agent, id: StreamId, o: nat)
    requires Inv(c, a) && id in a.byId && a.byId[id] == o
    ensures o in a.streams && o < a.nextStream && a.streams[o].id == id && !a.streams[o].closed
  {
    assert IdOk(a, id) && RecordOk(c, a, o);
  }

  lemma RefusalAsksToDrop(c: Config, st: Stream)
    requires st.phase.Asking? && st.sealer.Some? && !st.closed
    ensures OnGateSettled(c, st, No) == Outcome(st.(phase := Idle), Some("not approved"))
  {
  }

  lemma GateStepIsPut(c: Config, b: Agent, o: nat, verdict: Verdict)
    requires o in b.streams && b.streams[o].phase.Asking? && b.streams[o].sealer.Some?
    ensures Enabled(b, GateSettles(o, verdict))
    ensures Step(c, b, GateSettles(o, verdict)) == Put(b, o, OnGateSettled(c, b.streams[o], verdict))
  {
    hide OnGateSettled, Put;
  }

  lemma DropTakesTheNewer(b: Agent, o: nat, r: Outcome, newer: nat)
    requires o in b.streams && newer != o && r.stream.id in b.byId && b.byId[r.stream.id] == newer
    ensures o in Put(b, o, r).streams && Put(b, o, r).streams[o] == r.stream
  {
  }

  lemma QueuedFrameIsRead(c: Config, a: Agent, o: nat, next: Data, plaintext: seq<Byte>, after: Opener)
    requires o in a.streams && !a.streams[o].closed && a.streams[o].phase.Idle? && a.streams[o].opener.Some? && Written(a.streams[o]) == []
    requires a.streams[o].jobs == [OpenJob(next)] && Decode(next).Some?
    requires Open(c.cipher, a.streams[o].opener.value, Decode(next).value) == Some((after, plaintext))
    ensures RunAnyway(c, a, [JobStarts(o), OpenSettles(o)]).Some?
    ensures var b := RunAnyway(c, a, [JobStarts(o), OpenSettles(o)]).value;
            o in b.streams && Written(b.streams[o]) == [c.text(plaintext)]
  {
    var st := a.streams[o];
    assert st.localOut == [] && st.toLocal == [];
    hide Decode, Open, Bind, FrameAt;
    var s3 := st.(jobs := st.jobs[1..], phase := Opening(Decode(next).value));
    assert OnJobStart(c, st, a.keyring) == Keep(s3);
    var s4 := WriteLocal(s3.(opener := Some(after), phase := Idle), c.text(plaintext));
    assert OnOpenSettled(c, s3) == Keep(s4);
    assert Written(s4) == [c.text(plaintext)];
    hide OnJobStart, OnOpenSettled, WriteLocal;
    var a3 := Step(c, a, JobStarts(o));
    assert a3.streams[o] == s3;
    assert Step(c, a3, OpenSettles(o)).streams[o] == s4;
    hide Step;
    RunOne(c, a, JobStarts(o), [OpenSettles(o)]);
    RunOne(c, a3, OpenSettles(o), []);
  }

  /** `dropStream` goes by id. If the broker opens a second stream under the id of one whose gate is open,
    * a refusal drops the second one, and the refused stream's next frame reaches loopback. */
  lemma ReusedIdDefeatsTheGate(c: Config, a: Agent, id: StreamId, o: nat, next: Data, plaintext: seq<Byte>, after: Opener)
    requires Inv(c, a) && id in a.byId && a.byId[id] == o
    requires BeingAsked(c, a.streams[o]) && a.streams[o].jobs == [OpenJob(next)] && Decode(next).Some?
    requires Open(c.cipher, a.streams[o].opener.value, Decode(next).value) == Some((after, plaintext))
    ensures var r := RunAnyway(c, a, [StreamOpens(id), GateSettles(o, No), JobStarts(o), OpenSettles(o)]);
            r.Some? && o in r.value.streams && Written(r.value.streams[o]) == [c.text(plaintext)]
  {
    assert RecordOk(c, a, o) && IdOk(a, id);
    hide Step, Decode, Open, FrameAt, Bind;
    RefusalHitsTheOther(c, a, id, o);
    var a1 := Step(c, a, StreamOpens(id));
    var a2 := Step(c, a1, GateSettles(o, No));
    assert Written(a2.streams[o]) == Written(a.streams[o]);
    hide Written;
    QueuedFrameIsRead(c, a2, o, next, plaintext, after);
    RunOne(c, a, StreamOpens(id), [GateSettles(o, No), JobStarts(o), OpenSettles(o)]);
    RunOne(c, a1, GateSettles(o, No), [JobStarts(o), OpenSettles(o)]);
    assert [StreamOpens(id)] + [GateSettles(o, No), JobStarts(o), OpenSettles(o)] == [StreamOpens(id), GateSettles(o, No), JobStarts(o), OpenSettles(o)];
    assert [GateSettles(o, No)] + [JobStarts(o), OpenSettles(o)] == [GateSettles(o, No), JobStarts(o), OpenSettles(o)];
  }

  /** Main result: a refusal shuts the stream it is about exactly when that stream's id still names it. */
  lemma RefusalShutsIffStillNamed(c: Config, a: Agent, o: nat)
    requires o in a.streams && a.streams[o].phase.Asking? && a.streams[o].sealer.Some? && !a.streams[o].closed
    ensures var b := Step(c, a, GateSettles(o, No));
            o in b.streams && (b.streams[o].closed <==> a.streams[o].id in a.byId && a.byId[a.streams[o].id] == o)
  {
    RefusalAsksToDrop(c, a.streams[o]);
    hide OnGateSettled;
  }

  /** Closed for good, with nothing more written or sent. */
  predicate StaysSo(before: Stream, st: Stream) {
    st.closed && Written(st) == Written(before) && st.sent == before.sent
  }

  lemma ClosedJobIsSilent(c: Config, st: Stream, keyring: seq<KeyEntry>)
    requires st.closed && st.phase.Idle? && st.jobs != []
    ensures StaysSo(st, OnJobStart(c, st, keyring).stream)
  {
    hide Decode, FrameAt;
  }

  lemma ClosedTrialIsSilent(c: Config, st: Stream, keyring: seq<KeyEntry>, salt: Salt)
    requires st.closed && st.phase.Trying?
    ensures StaysSo(st, OnTrialSettled(c, st, keyring, salt).stream)
  {
    hide Bind;
  }

  lemma ClosedAwaitsAreSilent(c: Config, st: Stream)
    requires st.closed
    ensures st.phase.Asking? && st.sealer.Some? ==> forall v :: StaysSo(st, OnGateSettled(c, st, v).stream)
    ensures st.phase.Opening? && st.opener.Some? ==> StaysSo(st, OnOpenSettled(c, st).stream)
    ensures (st.phase.Sealing? || st.phase.Flushing?) && st.sealer.Some? ==> forall sealed :: StaysSo(st, OnSealSettled(c, st, sealed).stream)
  {
    hide Open, FrameAt;
  }

  lemma PutIsSilent(a: Agent, o: nat, r: Outcome, x: nat)
    requires o in a.streams && x in a.streams && a.streams[x].closed && (x == o ==> StaysSo(a.streams[x], r.stream))
    ensures x in Put(a, o, r).streams && StaysSo(a.streams[x], Put(a, o, r).streams[x])
  {
  }

  lemma MapStepIsSilent(c: Config, a: Agent, e: Event, x: nat)
    requires (e.StreamOpens? || Enabled(a, e)) && x in a.streams && x < a.nextStream && a.streams[x].closed
    requires e.StreamOpens? || e.StreamCloses? || e.TornDown? || e.KeysAdded? || e.KeysRemoved? || e.LocalCloses?
    ensures x in Step(c, a, e).streams && x < Step(c, a, e).nextStream && StaysSo(a.streams[x], Step(c, a, e).streams[x])
  {
    hide WithoutDevice;
  }

  lemma ClosedStepIsSilent(c: Config, a: Agent, e: Event, x: nat)
    requires (e.StreamOpens? || Enabled(a, e)) && x in a.streams && x < a.nextStream && a.streams[x].closed
    ensures x in Step(c, a, e).streams && x < Step(c, a, e).nextStream && StaysSo(a.streams[x], Step(c, a, e).streams[x])
  {
    ClosedAwaitsAreSilent(c, a.streams[x]);
    if e.JobStarts? && e.stream == x { ClosedJobIsSilent(c, a.streams[x], a.keyring); }
    if e.TrialSettles? && e.stream == x { ClosedTrialIsSilent(c, a.streams[x], a.keyring, e.salt); }
    hide Put, OnJobStart, OnTrialSettled, OnGateSettled, OnOpenSettled, OnSealSettled, DropAll, RemoveKeys, DropStream;
    match e
    case FrameArrives(id, data) => if id in a.byId && a.byId[id] in a.streams { PutIsSilent(a, a.byId[id], Keep(OnFrame(a.streams[a.byId[id]], data)), x); }
    case LocalOpens(o) => PutIsSilent(a, o, Keep(OnLocalOpen(a.streams[o])), x);
    case LocalSays(o, line) => PutIsSilent(a, o, Keep(OnLocalMessage(a.streams[o], line)), x);
    case JobStarts(o) => PutIsSilent(a, o, OnJobStart(c, a.streams[o], a.keyring), x);
    case TrialSettles(o, salt) => PutIsSilent(a, o, OnTrialSettled(c, a.streams[o], a.keyring, salt), x);
    case GateSettles(o, verdict) => PutIsSilent(a, o, OnGateSettled(c, a.streams[o], verdict), x);
    case OpenSettles(o) => PutIsSilent(a, o, OnOpenSettled(c, a.streams[o]), x);
    case SealSettles(o, sealed) => PutIsSilent(a, o, OnSealSettled(c, a.streams[o], sealed), x);
    case _ => MapStepIsSilent(c, a, e, x);
  }

  /** Main result: once closed, a stream writes and sends nothing more, even if its id is used again. */
  lemma {:induction false} ShutStaysShut(c: Config, a: Agent, es: seq<Event>, x: nat)
    requires x in a.streams && x < a.nextStream && a.streams[x].closed && RunAnyway(c, a, es).Some?
    ensures var b := RunAnyway(c, a, es).value;
            x in b.streams && StaysSo(a.streams[x], b.streams[x])
    decreases |es|
  {
    hide Step, Enabled, Written;
    if es != [] {
      ClosedStepIsSilent(c, a, es[0], x);
      ShutStaysShut(c, Step(c, a, es[0]), es[1..], x);
    }
  }

  /** A stream refused while its id still names it has written and sent nothing, and never will. */
  lemma RefusedWritesNothing(c: Config, a: Agent, o: nat, es: seq<Event>)
    requires Inv(c, a) && o in a.streams && a.streams[o].phase.Asking? && !a.streams[o].closed && a.streams[o].sealer.Some?
    requires RunAnyway(c, Step(c, a, GateSettles(o, No)), es).Some?
    ensures var b := RunAnyway(c, Step(c, a, GateSettles(o, No)), es).value;
            o in b.streams && b.streams[o].closed && Written(b.streams[o]) == [] && b.streams[o].sent == []
  {
    assert RecordOk(c, a, o) && a.streams[o].id in a.byId && a.byId[a.streams[o].id] == o;
    AskedHasSaidNothing(c, a.streams[o]);
    hide Inv, RunAnyway, OnGateSettled;
    RefusalAsksToDrop(c, a.streams[o]);
    RefusalShutsIffStillNamed(c, a, o);
    var b := Step(c, a, GateSettles(o, No));
    assert o < b.nextStream && Written(b.streams[o]) == Written(a.streams[o]) && b.streams[o].sent == a.streams[o].sent;
    hide Step, Enabled, Written;
    ShutStaysShut(c, b, es, o);
  }

  lemma AskedHasSaidNothing(c: Config, st: Stream)
    requires StreamOk(c, st) && !st.closed && st.phase.Asking?
    ensures Written(st) == [] && st.sent == []
  {
    hide FramesWait, OpenerOk, SealerOk, Bind, Decode, Reads, Seals;
  }

  /** Two frames the browser sealed under a key bind and open. */
  lemma GenuineFramesOpen(c: Cipher, key: Key, salt: Salt, first: seq<Byte>, second: seq<Byte>)
    requires Undoes(c)
    ensures Bind(c, key, C2S, FrameAt(c, key, C2S, salt, 0, first)) == Some((Opener(key, C2S, salt, Some(0)), first))
    ensures Open(c, Opener(key, C2S, salt, Some(0)), FrameAt(c, key, C2S, salt, 1, second)) == Some((Opener(key, C2S, salt, Some(1)), second))
  {
    hide BigEndian, ReadBigEndian, FrameAt;
    FrameLayout(c, key, C2S, salt, 0, first);
    FrameLayout(c, key, C2S, salt, 1, second);
    CounterReadsBack(0);
    CounterReadsBack(1);
  }

  lemma TrialAsks(c: Config, st: Stream, keyring: seq<KeyEntry>, salt: Salt, opener: Opener, plaintext: seq<Byte>)
    requires c.gated && !st.closed && st.phase.Trying? && Bind(c.cipher, st.phase.entry.c2s, C2S, st.phase.frame) == Some((opener, plaintext))
    ensures var e := st.phase.entry;
            OnTrialSettled(c, st, keyring, salt)
              == Keep(st.(opener := Some(opener), sealer := Some(Sealer(e.s2c, S2C, salt, 0)), device := e.device, phase := Asking(c.text(plaintext))))
  {
    hide Bind;
  }

  lemma JobStep(c: Config, a: Agent, o: nat, st: Stream)
    requires o in a.streams && a.streams[o].phase.Idle? && a.streams[o].jobs != [] && OnJobStart(c, a.streams[o], a.keyring) == Keep(st)
    ensures Enabled(a, JobStarts(o)) && Step(c, a, JobStarts(o)) == a.(streams := a.streams[o := st])
  {
    hide OnJobStart;
  }

  lemma TrialStep(c: Config, a: Agent, o: nat, salt: Salt, st: Stream)
    requires o in a.streams && a.streams[o].phase.Trying? && OnTrialSettled(c, a.streams[o], a.keyring, salt) == Keep(st)
    ensures Enabled(a, TrialSettles(o, salt)) && Step(c, a, TrialSettles(o, salt)) == a.(streams := a.streams[o := st])
  {
    hide OnTrialSettled;
  }

  /** The first frame's job and its trial, on an agent where two frames wait. */
  lemma FirstOfTwoBinds(c: Config, entry: KeyEntry, id: StreamId, first: Data, next: Data, frame: seq<Byte>, opener: Opener, plaintext: seq<Byte>, salt: Salt)
    requires c.gated && Decode(first) == Some(frame) && Bind(c.cipher, entry.c2s, C2S, frame) == Some((opener, plaintext))
    ensures var a := Waiting(entry, id, [first, next]);
            && Enabled(a, JobStarts(0)) && Enabled(Step(c, a, JobStarts(0)), TrialSettles(0, salt))
            && var b := Step(c, Step(c, a, JobStarts(0)), TrialSettles(0, salt));
               && id in b.byId && b.byId[id] == 0 && 0 in b.streams && !b.streams[0].closed && b.streams[0].phase.Asking? && !b.streams[0].admitted
               && b.streams[0].opener == Some(opener) && b.streams[0].sealer.Some? && b.streams[0].jobs == [OpenJob(next)]
  {
    var a := Waiting(entry, id, [first, next]);
    var st := a.streams[0];
    assert st.jobs == [OpenJob(first)] + [OpenJob(next)] by {
      assert [first, next][..1] == [first] && [first][..0] == [];
      assert OpenJobs([first]) == [OpenJob(first)];
    }
    hide Decode, Bind, OnJobStart, OnTrialSettled, Step, Enabled;
    TrialStarts(c, entry, id, first, frame, [OpenJob(next)], st);
    var trying := st.(jobs := [OpenJob(next)], phase := Trying(0, entry, frame));
    JobStep(c, a, 0, trying);
    TrialAsks(c, trying, [entry], salt, opener, plaintext);
    var asked := trying.(opener := Some(opener), sealer := Some(Sealer(entry.s2c, S2C, salt, 0)), device := entry.device, phase := Asking(c.text(plaintext)));
    TrialStep(c, a.(streams := a.streams[0 := trying]), 0, salt, asked);
  }

  /** Two frames wait; the first one's trial binds and the machine is asked. */
  lemma AskedWithAFrameWaiting(c: Config, entry: KeyEntry, id: StreamId, first: Data, next: Data, frame: seq<Byte>, opener: Opener, plaintext: seq<Byte>, salt: Salt)
    requires c.gated && Decode(first) == Some(frame) && Bind(c.cipher, entry.c2s, C2S, frame) == Some((opener, plaintext))
    ensures var es := [KeysAdded(entry), StreamOpens(id), FrameArrives(id, first), FrameArrives(id, next), JobStarts(0), TrialSettles(0, salt)];
            && AllEnabled(c, START, es)
            && var a := Exec(c, START, es);
               && id in a.byId && a.byId[id] == 0 && 0 in a.streams && !a.streams[0].closed && a.streams[0].phase.Asking? && !a.streams[0].admitted
               && a.streams[0].opener == Some(opener) && a.streams[0].sealer.Some? && a.streams[0].jobs == [OpenJob(next)]
  {
    hide Step, Waiting, Decode, Bind, Exec, AllEnabled, OpenJobs;
    assert Enabled(Waiting(entry, id, [first]), FrameArrives(id, next));
    hide Enabled;
    OneFrameWaits(c, entry, id, first);
    FrameWaits(c, entry, id, [first], next);
    assert [first] + [next] == [first, next];
    FirstOfTwoBinds(c, entry, id, first, next, frame, opener, plaintext, salt);
    var es3 := [KeysAdded(entry), StreamOpens(id), FrameArrives(id, first)];
    Follow(c, START, es3, FrameArrives(id, next));
    Follow(c, START, es3 + [FrameArrives(id, next)], JobStarts(0));
    Follow(c, START, es3 + [FrameArrives(id, next)] + [JobStarts(0)], TrialSettles(0, salt));
    assert es3 + [FrameArrives(id, next)] + [JobStarts(0)] + [TrialSettles(0, salt)]
        == [KeysAdded(entry), StreamOpens(id), FrameArrives(id, first), FrameArrives(id, next), JobStarts(0), TrialSettles(0, salt)];
  }

  /** The run that shows it: a browser seals two frames under a key that was added. The first one binds and the
    * machine is asked; the broker opens a second stream under the same id; the machine refuses. The second
    * frame's line is written to loopback. */
  lemma ReuseRun(c: Config, entry: KeyEntry, id: StreamId, sealing: Salt, salt: Salt, plain: seq<Byte>, next: seq<Byte>)
    requires c.gated && Undoes(c.cipher)
    ensures var first := Encode(FrameAt(c.cipher, entry.c2s, C2S, sealing, 0, plain));
            var second := Encode(FrameAt(c.cipher, entry.c2s, C2S, sealing, 1, next));
            var es := [KeysAdded(entry), StreamOpens(id), FrameArrives(id, first), FrameArrives(id, second), JobStarts(0), TrialSettles(0, salt)];
            && AllEnabled(c, START, es)
            && var r := RunAnyway(c, Exec(c, START, es), [StreamOpens(id), GateSettles(0, No), JobStarts(0), OpenSettles(0)]);
               r.Some? && 0 in r.value.streams && Written(r.value.streams[0]) == [c.text(next)]
  {
    var f0 := FrameAt(c.cipher, entry.c2s, C2S, sealing, 0, plain);
    var f1 := FrameAt(c.cipher, entry.c2s, C2S, sealing, 1, next);
    var first, second := Encode(f0), Encode(f1);
    var opener := Opener(entry.c2s, C2S, sealing, Some(0));
    GenuineFramesOpen(c.cipher, entry.c2s, sealing, plain, next);
    DecodeInvertsEncode(f0);
    DecodeInvertsEncode(f1);
    hide Undoes, FrameAt, Encode, Decode, Bind, Open;
    AskedWithAFrameWaiting(c, entry, id, first, second, f0, opener, plain, salt);
    var es := [KeysAdded(entry), StreamOpens(id), FrameArrives(id, first), FrameArrives(id, second), JobStarts(0), TrialSettles(0, salt)];
    var a := Exec(c, START, es);
    RunsKeepInv(c, START, es);
    AskedIsBeingAsked(c, a, 0);
    hide Exec, AllEnabled, RunAnyway, Inv, BeingAsked;
    ReusedIdDefeatsTheGate(c, a, id, 0, second, next, Opener(entry.c2s, C2S, sealing, Some(1)));
  }

  lemma AskedIsBeingAsked(c: Config, a: Agent, o: nat)
    requires Inv(c, a) && o in a.streams && !a.streams[o].closed && a.streams[o].phase.Asking?
    ensures BeingAsked(c, a.streams[o])
  {
    assert RecordOk(c, a, o);
    hide Inv, Safe, FramesWait, OpenerOk, SealerOk, Bind, Decode;
  }
}
