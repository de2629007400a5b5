/** The search for a stream's key: whose key binds it, and when it is given up. */
module TunnelBinding {
  import opened Options
  import opened Bytes
  import opened Frames
  import opened TunnelAgent
  import opened TunnelProofs
  import opened TunnelRuns
  import opened TunnelRevocation

  const NO_MATCH := "no matching pairing"

  function Fits(c: Config, entry: KeyEntry, frame: seq<Byte>): Option<(Opener, seq<Byte>)> {
    Bind(c.cipher, entry.c2s, C2S, frame)
  }

  /** The stream is live and unbound, and entry `k` of this keyring is being tried on its first frame. */
  predicate OnTrial(a: Agent, o: nat, k: nat, frame: seq<Byte>, ring: seq<KeyEntry>) {
    && o in a.streams && o < a.nextStream && a.keyring == ring && k < |ring|
    && !a.streams[o].closed && a.streams[o].opener.None? && a.streams[o].told.None?
    && a.streams[o].phase == Trying(k, ring[k], frame)
  }

  predicate LeavesKeys(e: Event) {
    !e.KeysAdded? && !e.KeysRemoved?
  }

  predicate IsTrialOf(e: Event, o: nat) {
    e.TrialSettles? && e.stream == o
  }

  // ---------------------------------------------------------------------------
  // One step
  // ---------------------------------------------------------------------------

  /** A first frame that decodes puts the first entry on trial; with no entries the stream is given up. */
  lemma FirstEntryIsTried(c: Config, a: Agent, o: nat, data: Data, frame: seq<Byte>)
    requires o in a.streams && o < a.nextStream && !a.streams[o].closed && a.streams[o].opener.None? && a.streams[o].told.None?
    requires a.streams[o].phase.Idle? && a.streams[o].jobs != [] && a.streams[o].jobs[0] == OpenJob(data) && Decode(data) == Some(frame)
    ensures Enabled(a, JobStarts(o))
    ensures a.keyring != [] ==> OnTrial(Step(c, a, JobStarts(o)), o, 0, frame, a.keyring)
  {
    hide Decode;
  }

  /** Anything but its own trial leaves a stream on trial, or closes it. */
  lemma OthersLeaveTrial(c: Config, a: Agent, e: Event, o: nat, k: nat, frame: seq<Byte>, ring: seq<KeyEntry>)
    requires OnTrial(a, o, k, frame, ring) && Enabled(a, e) && LeavesKeys(e) && !IsTrialOf(e, o)
    ensures var b := Step(c, a, e);
            o in b.streams && o < b.nextStream && (b.streams[o].closed || OnTrial(b, o, k, frame, ring))
  {
    hide OnJobStart, OnTrialSettled, OnGateSettled, OnOpenSettled, OnSealSettled, WithoutDevice;
    match e
    case FrameArrives(id, data) => if id in a.byId && a.byId[id] in a.streams { PutFrame(a, a.byId[id], Keep(OnFrame(a.streams[a.byId[id]], data)), o); }
    case LocalOpens(x) => PutFrame(a, x, Keep(OnLocalOpen(a.streams[x])), o);
    case LocalSays(x, line) => PutFrame(a, x, Keep(OnLocalMessage(a.streams[x], line)), o);
    case JobStarts(x) => PutFrame(a, x, OnJobStart(c, a.streams[x], a.keyring), o);
    case TrialSettles(x, salt) => PutFrame(a, x, OnTrialSettled(c, a.streams[x], a.keyring, salt), o);
    case GateSettles(x, verdict) => PutFrame(a, x, OnGateSettled(c, a.streams[x], verdict), o);
    case OpenSettles(x) => PutFrame(a, x, OnOpenSettled(c, a.streams[x]), o);
    case SealSettles(x, sealed) => PutFrame(a, x, OnSealSettled(c, a.streams[x], sealed), o);
    case _ =>
  }

  /** What putting one record back does to another, or to itself. */
  lemma PutFrame(a: Agent, x: nat, r: Outcome, o: nat)
    requires x in a.streams && o in a.streams
    ensures var b := Put(a, x, r);
            && b.keyring == a.keyring && b.nextStream == a.nextStream && o in b.streams
            && var st := if x == o then r.stream else a.streams[o];
               && (b.streams[o] == st || (r.drop.Some? && !st.closed && b.streams[o] == Closed(st, r.drop.value, true)))
               && (r.drop.None? ==> b.streams[o] == st)
               && (x != o && r.stream.id != a.streams[o].id && (r.stream.id in a.byId ==> a.byId[r.stream.id] != o) ==> b.streams[o] == st)
  {
  }

  /** An entry that does not fit hands over to the next one. */
  lemma NextEntryIsTried(c: Config, a: Agent, o: nat, k: nat, frame: seq<Byte>, ring: seq<KeyEntry>, salt: Salt)
    requires OnTrial(a, o, k, frame, ring) && Fits(c, ring[k], frame).None? && k + 1 < |ring|
    ensures Enabled(a, TrialSettles(o, salt)) && OnTrial(Step(c, a, TrialSettles(o, salt)), o, k + 1, frame, ring)
  {
    hide Bind;
  }

  /** When the last entry does not fit either, the stream is dropped, and the browser told why. */
  lemma LastEntryFails(c: Config, a: Agent, o: nat, k: nat, frame: seq<Byte>, ring: seq<KeyEntry>, salt: Salt)
    requires Inv(c, a) && OnTrial(a, o, k, frame, ring) && Fits(c, ring[k], frame).None? && k + 1 == |ring|
    ensures var b := Step(c, a, TrialSettles(o, salt));
            o in b.streams && b.streams[o].closed && b.streams[o].told == Some(NO_MATCH) && b.streams[o].opener.None?
  {
    assert RecordOk(c, a, o);
    hide Bind, Inv, StreamOk;
  }

  /** What the stream becomes when an entry fits: bound to both of its keys and its device; the opened line waits for
    * the gate, or is written. */
  predicate BoundTo(c: Config, before: Stream, st: Stream, entry: KeyEntry, opener: Opener, plaintext: seq<Byte>, salt: Salt) {
    && st.opener == Some(opener) && opener.key == entry.c2s
    && st.sealer.Some? && st.sealer.value.key == entry.s2c && st.sealer.value.salt == salt && st.device == entry.device
    && (c.gated ==> st.phase == Asking(c.text(plaintext)) && Written(st) == Written(before) && st.toBroker == before.toBroker && !st.closed)
    && (!c.gated ==> Written(st) == Written(before) + [c.text(plaintext)] && st.admitted && st.toBroker == [])
  }

  lemma FittingTrial(c: Config, st: Stream, keyring: seq<KeyEntry>, entry: KeyEntry, frame: seq<Byte>, salt: Salt)
    requires st.phase.Trying? && st.phase.entry == entry && st.phase.frame == frame && !st.closed && st.told.None? && (st.localOpen ==> st.toLocal == [])
    requires Fits(c, entry, frame).Some?
    ensures var (opener, plaintext) := Fits(c, entry, frame).value;
            var r := OnTrialSettled(c, st, keyring, salt);
            && BoundTo(c, st, r.stream, entry, opener, plaintext, salt) && !r.stream.phase.Trying? && r.stream.told.None? && !r.stream.closed
            && (r.drop.Some? ==> !c.gated && r.drop.value == "open failed")
  {
    BindKeepsKey(c.cipher, entry.c2s, frame);
    var (opener, plaintext) := Fits(c, entry, frame).value;
    if !c.gated {
      LetThroughBinds(c, st.(opener := Some(opener), sealer := Some(Sealer(entry.s2c, S2C, salt, 0)), device := entry.device), c.text(plaintext));
    }
    hide Bind, LetThrough;
  }

  lemma FittingEntryBinds(c: Config, a: Agent, o: nat, k: nat, frame: seq<Byte>, ring: seq<KeyEntry>, salt: Salt)
    requires Inv(c, a) && OnTrial(a, o, k, frame, ring) && Fits(c, ring[k], frame).Some?
    ensures var b := Step(c, a, TrialSettles(o, salt));
            var (opener, plaintext) := Fits(c, ring[k], frame).value;
            && Enabled(a, TrialSettles(o, salt)) && o in b.streams
            && BoundTo(c, a.streams[o], b.streams[o], ring[k], opener, plaintext, salt)
            && !b.streams[o].phase.Trying? && b.streams[o].told != Some(NO_MATCH)
  {
    hide Fits, Inv, Put, OnTrialSettled;
    HoldsOnlyWhileShut(c, a, o);
    FittingTrial(c, a.streams[o], ring, ring[k], frame, salt);
    PutFrame(a, o, OnTrialSettled(c, a.streams[o], ring, salt), o);
  }

  lemma HoldsOnlyWhileShut(c: Config, a: Agent, o: nat)
    requires Inv(c, a) && o in a.streams
    ensures a.streams[o].localOpen ==> a.streams[o].toLocal == []
  {
    assert RecordOk(c, a, o);
    hide Inv, Unbound, BeingAsked, Flowing, Reads, Seals;
  }

  lemma BindKeepsKey(c: Cipher, key: Key, frame: seq<Byte>)
    ensures Bind(c, key, C2S, frame).Some? ==> Bind(c, key, C2S, frame).value.0.key == key
  {
  }

  lemma FlushKeepsBinding(c: Config, st: Stream, held: seq<Line>)
    requires st.sealer.Some?
    ensures var r := FlushNext(c, st, held);
            && r.stream == st.(sealer := r.stream.sealer, phase := r.stream.phase) && !r.stream.phase.Trying?
            && r.stream.sealer.Some? && r.stream.sealer.value.key == st.sealer.value.key && r.stream.sealer.value.salt == st.sealer.value.salt
            && (r.drop.Some? ==> r.drop.value == "open failed")
  {
    hide FrameAt;
  }

  lemma LetThroughBinds(c: Config, st: Stream, line: Line)
    requires st.sealer.Some? && (st.localOpen ==> st.toLocal == [])
    ensures var r := LetThrough(c, st, line);
            && r.stream.opener == st.opener && r.stream.sealer.Some? && r.stream.sealer.value.key == st.sealer.value.key
            && r.stream.sealer.value.salt == st.sealer.value.salt && r.stream.device == st.device && r.stream.closed == st.closed
            && r.stream.told == st.told && Written(r.stream) == Written(st) + [line] && r.stream.admitted && r.stream.toBroker == []
            && !r.stream.phase.Trying? && (r.drop.Some? ==> r.drop.value == "open failed")
  {
    var t := WriteLocal(st.(admitted := true), line);
    assert Written(t) == Written(st) + [line];
    FlushKeepsBinding(c, t.(toBroker := []), t.toBroker);
    hide FlushNext;
  }

  // ---------------------------------------------------------------------------
  // Whole runs
  // ---------------------------------------------------------------------------

  predicate KeysStand(es: seq<Event>) {
    forall i | 0 <= i < |es| :: LeavesKeys(es[i])
  }

  function Trials(es: seq<Event>, o: nat): nat {
    if es == [] then 0 else (if IsTrialOf(es[0], o) then 1 else 0) + Trials(es[1..], o)
  }

  /** Closed for good, whatever happens next. */
  lemma {:induction false} ClosedStays(c: Config, a: Agent, es: seq<Event>, o: nat)
    requires AllEnabled(c, a, es) && o in a.streams && o < a.nextStream && a.streams[o].closed
    ensures o in Exec(c, a, es).streams && Exec(c, a, es).streams[o].closed
    decreases |es|
  {
    hide Step, Enabled, Written;
    if es != [] {
      ClosedStepIsSilent(c, a, es[0], o);
      ClosedStays(c, Step(c, a, es[0]), es[1..], o);
    }
  }

  /** While the keyring stands and the stream stays open, as many entries are passed over as trials settle. */
  lemma {:induction false} TrialsMoveOn(c: Config, a: Agent, es: seq<Event>, o: nat, k: nat, frame: seq<Byte>, ring: seq<KeyEntry>)
    requires AllEnabled(c, a, es) && KeysStand(es) && OnTrial(a, o, k, frame, ring) && k + Trials(es, o) < |ring|
    requires forall i | k <= i < k + Trials(es, o) :: Fits(c, ring[i], frame).None?
    requires o in Exec(c, a, es).streams && !Exec(c, a, es).streams[o].closed
    ensures OnTrial(Exec(c, a, es), o, k + Trials(es, o), frame, ring)
    decreases |es|
  {
    hide Step, Enabled, OnTrial, Fits;
    if es != [] {
      assert LeavesKeys(es[0]);
      assert KeysStand(es[1..]) by { forall i | 0 <= i < |es[1..]| ensures LeavesKeys(es[1..][i]) { assert es[1..][i] == es[i + 1]; } }
      hide LeavesKeys, KeysStand;
      var b := Step(c, a, es[0]);
      if IsTrialOf(es[0], o) {
        assert Fits(c, ring[k], frame).None?;
        NextEntryIsTried(c, a, o, k, frame, ring, es[0].salt);
        assert es[0] == TrialSettles(o, es[0].salt);
        TrialsMoveOn(c, b, es[1..], o, k + 1, frame, ring);
      } else {
        OthersLeaveTrial(c, a, es[0], o, k, frame, ring);
        if b.streams[o].closed { ClosedStays(c, b, es[1..], o); }
        TrialsMoveOn(c, b, es[1..], o, k, frame, ring);
      }
    }
  }

  /** Main result: while the keyring stands and the stream stays open, the first entry whose key fits its first frame is
    * the one that binds it, once every entry before it and that one has been tried, whatever else happens meanwhile. */
  lemma FirstFittingEntryBinds(c: Config, a: Agent, es: seq<Event>, o: nat, frame: seq<Byte>, n: nat, salt: Salt)
    requires Inv(c, a) && OnTrial(a, o, 0, frame, a.keyring) && AllEnabled(c, a, es) && KeysStand(es) && Trials(es, o) == n < |a.keyring|
    requires Fits(c, a.keyring[n], frame).Some? && forall i | 0 <= i < n :: Fits(c, a.keyring[i], frame).None?
    requires o in Exec(c, a, es).streams && !Exec(c, a, es).streams[o].closed
    ensures var b := Exec(c, a, es);
            var (opener, plaintext) := Fits(c, a.keyring[n], frame).value;
            && Enabled(b, TrialSettles(o, salt)) && o in Step(c, b, TrialSettles(o, salt)).streams
            && BoundTo(c, b.streams[o], Step(c, b, TrialSettles(o, salt)).streams[o], a.keyring[n], opener, plaintext, salt)
  {
    TrialsMoveOn(c, a, es, o, 0, frame, a.keyring);
    RunsKeepInv(c, a, es);
    hide Exec, AllEnabled, Step, Enabled, Inv, BoundTo, Fits;
    FittingEntryBinds(c, Exec(c, a, es), o, n, frame, a.keyring, salt);
  }

  // ---------------------------------------------------------------------------
  // Giving up
  // ---------------------------------------------------------------------------

  /** No other record goes by this stream's id. */
  predicate Alone(a: Agent, o: nat) {
    o in a.streams && o < a.nextStream && (forall x | x in a.streams && x != o :: a.streams[x].id != a.streams[o].id)
    && (forall x | x in a.streams :: x < a.nextStream) && (forall id | id in a.byId && a.byId[id] == o :: id == a.streams[o].id)
  }

  /** Bound or closed, and not for want of a key. */
  predicate OtherwiseEnded(st: Stream) {
    (st.closed || (st.opener.Some? && !st.phase.Trying?)) && st.told != Some(NO_MATCH)
  }

  lemma OwnJob(c: Config, st: Stream, keyring: seq<KeyEntry>)
    requires st.phase.Idle? && st.jobs != [] && OtherwiseEnded(st)
    ensures var r := OnJobStart(c, st, keyring);
            OtherwiseEnded(r.stream) && r.stream.closed == st.closed && (r.drop.Some? && !st.closed ==> r.drop.value != NO_MATCH)
  {
    hide Decode, FrameAt;
  }

  lemma OwnTrial(c: Config, st: Stream, keyring: seq<KeyEntry>, salt: Salt)
    requires st.phase.Trying? && OtherwiseEnded(st)
    ensures var r := OnTrialSettled(c, st, keyring, salt);
            OtherwiseEnded(r.stream) && r.stream.closed
  {
    hide Bind;
  }

  lemma OwnGate(c: Config, st: Stream, verdict: Verdict)
    requires OtherwiseEnded(st) && st.phase.Asking? && st.sealer.Some?
    ensures var r := OnGateSettled(c, st, verdict);
            OtherwiseEnded(r.stream) && (r.drop.Some? ==> r.drop.value != NO_MATCH)
  {
    var t := WriteLocal(st.(admitted := true), st.phase.line);
    FlushKeepsBinding(c, t.(toBroker := []), t.toBroker);
    hide FlushNext;
  }

  lemma OwnOpen(c: Config, st: Stream)
    requires OtherwiseEnded(st) && st.phase.Opening? && st.opener.Some?
    ensures var r := OnOpenSettled(c, st);
            OtherwiseEnded(r.stream) && (r.drop.Some? ==> r.drop.value != NO_MATCH)
  {
    hide Open;
  }

  lemma OwnSeal(c: Config, st: Stream, sealed: bool)
    requires OtherwiseEnded(st) && (st.phase.Sealing? || st.phase.Flushing?) && st.sealer.Some?
    ensures var r := OnSealSettled(c, st, sealed);
            OtherwiseEnded(r.stream) && (r.drop.Some? ==> r.drop.value != NO_MATCH)
  {
    if st.phase.Flushing? { FlushKeepsBinding(c, SendSealed(st, st.phase.frame), st.phase.held); }
    hide FlushNext, Encode;
  }

  lemma JobKeepsId(c: Config, st: Stream, keyring: seq<KeyEntry>)
    requires st.phase.Idle? && st.jobs != []
    ensures OnJobStart(c, st, keyring).stream.id == st.id
  {
    hide Decode, FrameAt;
  }

  lemma TrialKeepsId(c: Config, st: Stream, keyring: seq<KeyEntry>, salt: Salt)
    requires st.phase.Trying?
    ensures OnTrialSettled(c, st, keyring, salt).stream.id == st.id
  {
    hide Bind, FrameAt;
  }

  lemma AwaitKeepsId(c: Config, st: Stream)
    ensures st.phase.Asking? && st.sealer.Some? ==> forall v :: OnGateSettled(c, st, v).stream.id == st.id
    ensures st.phase.Opening? && st.opener.Some? ==> OnOpenSettled(c, st).stream.id == st.id
    ensures (st.phase.Sealing? || st.phase.Flushing?) && st.sealer.Some? ==> forall b :: OnSealSettled(c, st, b).stream.id == st.id
  {
    hide Open, FrameAt;
  }

  /** A record's own outcome, put back: it ends no other way than it says, and no other record can end it. */
  lemma PutEnds(a: Agent, x: nat, r: Outcome, o: nat)
    requires x in a.streams && Alone(a, o) && r.stream.id == a.streams[x].id
    requires x == o ==> OtherwiseEnded(r.stream) && (r.drop.Some? && !r.stream.closed ==> r.drop.value != NO_MATCH)
    requires x != o ==> OtherwiseEnded(a.streams[o])
    ensures o in Put(a, x, r).streams && OtherwiseEnded(Put(a, x, r).streams[o])
  {
    PutFrame(a, x, r, o);
    hide Put;
  }

  lemma EndedStaysEnded(c: Config, a: Agent, e: Event, o: nat)
    requires Alone(a, o) && OtherwiseEnded(a.streams[o]) && Enabled(a, e)
    ensures o in Step(c, a, e).streams && OtherwiseEnded(Step(c, a, e).streams[o])
  {
    hide OnJobStart, OnTrialSettled, OnGateSettled, OnOpenSettled, OnSealSettled, WithoutDevice, Put;
    match e
    case FrameArrives(id, data) => if id in a.byId && a.byId[id] in a.streams { PutEnds(a, a.byId[id], Keep(OnFrame(a.streams[a.byId[id]], data)), o); }
    case LocalOpens(x) => PutEnds(a, x, Keep(OnLocalOpen(a.streams[x])), o);
    case LocalSays(x, line) => PutEnds(a, x, Keep(OnLocalMessage(a.streams[x], line)), o);
    case JobStarts(x) =>
      JobKeepsId(c, a.streams[x], a.keyring);
      if x == o { OwnJob(c, a.streams[o], a.keyring); }
      PutEnds(a, x, OnJobStart(c, a.streams[x], a.keyring), o);
    case TrialSettles(x, salt) =>
      TrialKeepsId(c, a.streams[x], a.keyring, salt);
      if x == o { OwnTrial(c, a.streams[o], a.keyring, salt); }
      PutEnds(a, x, OnTrialSettled(c, a.streams[x], a.keyring, salt), o);
    case GateSettles(x, verdict) =>
      AwaitKeepsId(c, a.streams[x]);
      if x == o { OwnGate(c, a.streams[o], verdict); }
      PutEnds(a, x, OnGateSettled(c, a.streams[x], verdict), o);
    case OpenSettles(x) =>
      AwaitKeepsId(c, a.streams[x]);
      if x == o { OwnOpen(c, a.streams[o]); }
      PutEnds(a, x, OnOpenSettled(c, a.streams[x]), o);
    case SealSettles(x, sealed) =>
      AwaitKeepsId(c, a.streams[x]);
      if x == o { OwnSeal(c, a.streams[o], sealed); }
      PutEnds(a, x, OnSealSettled(c, a.streams[x], sealed), o);
    case _ =>
  }

  /** A run in which nobody else is ever given this stream's id. */
  predicate AloneThroughout(c: Config, a: Agent, es: seq<Event>, o: nat)
    requires AllEnabled(c, a, es)
    decreases |es|
  {
    Alone(a, o) && (es == [] || AloneThroughout(c, Step(c, a, es[0]), es[1..], o))
  }

  lemma {:induction false} EndedRuns(c: Config, a: Agent, es: seq<Event>, o: nat)
    requires AllEnabled(c, a, es) && AloneThroughout(c, a, es, o) && OtherwiseEnded(a.streams[o])
    ensures o in Exec(c, a, es).streams && OtherwiseEnded(Exec(c, a, es).streams[o])
    decreases |es|
  {
    hide Step, Enabled, OtherwiseEnded;
    if es != [] {
      EndedStaysEnded(c, a, es[0], o);
      EndedRuns(c, Step(c, a, es[0]), es[1..], o);
    }
  }

  /** While it is on trial, a stream nobody shares an id with is closed by others only for reasons of their own. */
  lemma ClosedByOthers(c: Config, a: Agent, e: Event, o: nat, k: nat, frame: seq<Byte>, ring: seq<KeyEntry>)
    requires OnTrial(a, o, k, frame, ring) && Alone(a, o) && Enabled(a, e) && !IsTrialOf(e, o)
    ensures var b := Step(c, a, e);
            o in b.streams && (b.streams[o].closed ==> OtherwiseEnded(b.streams[o]))
  {
    hide OnJobStart, OnTrialSettled, OnGateSettled, OnOpenSettled, OnSealSettled, WithoutDevice;
    match e
    case FrameArrives(id, data) => if id in a.byId && a.byId[id] in a.streams { PutFrame(a, a.byId[id], Keep(OnFrame(a.streams[a.byId[id]], data)), o); }
    case LocalOpens(x) => PutFrame(a, x, Keep(OnLocalOpen(a.streams[x])), o);
    case LocalSays(x, line) => PutFrame(a, x, Keep(OnLocalMessage(a.streams[x], line)), o);
    case JobStarts(x) => JobKeepsId(c, a.streams[x], a.keyring); PutFrame(a, x, OnJobStart(c, a.streams[x], a.keyring), o);
    case TrialSettles(x, salt) => TrialKeepsId(c, a.streams[x], a.keyring, salt); PutFrame(a, x, OnTrialSettled(c, a.streams[x], a.keyring, salt), o);
    case GateSettles(x, verdict) => AwaitKeepsId(c, a.streams[x]); PutFrame(a, x, OnGateSettled(c, a.streams[x], verdict), o);
    case OpenSettles(x) => AwaitKeepsId(c, a.streams[x]); PutFrame(a, x, OnOpenSettled(c, a.streams[x]), o);
    case SealSettles(x, sealed) => AwaitKeepsId(c, a.streams[x]); PutFrame(a, x, OnSealSettled(c, a.streams[x], sealed), o);
    case _ =>
  }

  lemma {:induction false} GivenUpOnlyAfterAll(c: Config, a: Agent, es: seq<Event>, o: nat, k: nat, frame: seq<Byte>, ring: seq<KeyEntry>)
    requires AllEnabled(c, a, es) && KeysStand(es) && AloneThroughout(c, a, es, o) && OnTrial(a, o, k, frame, ring) && Inv(c, a)
    requires forall i | 0 <= i < k :: Fits(c, ring[i], frame).None?
    ensures o in Exec(c, a, es).streams
    ensures Exec(c, a, es).streams[o].told == Some(NO_MATCH) ==> forall i | 0 <= i < |ring| :: Fits(c, ring[i], frame).None?
    decreases |es|
  {
    if es == [] {
    } else {
      assert LeavesKeys(es[0]);
      assert KeysStand(es[1..]) by { forall i | 0 <= i < |es[1..]| ensures LeavesKeys(es[1..][i]) { assert es[1..][i] == es[i + 1]; } }
      StepKeepsInv(c, a, es[0]);
      hide Step, Enabled, OnTrial, Fits, LeavesKeys, KeysStand, Inv, OtherwiseEnded, BoundTo, Alone;
      var b := Step(c, a, es[0]);
      if IsTrialOf(es[0], o) {
        assert es[0] == TrialSettles(o, es[0].salt);
        OwnTrialSettles(c, a, es, o, k, frame, ring);
      } else {
        OthersLeaveTrial(c, a, es[0], o, k, frame, ring);
        ClosedByOthers(c, a, es[0], o, k, frame, ring);
        if b.streams[o].closed {
          EndedRuns(c, b, es[1..], o);
          EndedIsNotNoMatch(Exec(c, b, es[1..]).streams[o]);
        } else {
          GivenUpOnlyAfterAll(c, b, es[1..], o, k, frame, ring);
        }
      }
    }
  }

  lemma EndedIsNotNoMatch(st: Stream)
    requires OtherwiseEnded(st)
    ensures st.told != Some(NO_MATCH)
  {
  }

  lemma {:induction false} OwnTrialSettles(c: Config, a: Agent, es: seq<Event>, o: nat, k: nat, frame: seq<Byte>, ring: seq<KeyEntry>)
    requires AllEnabled(c, a, es) && es != [] && IsTrialOf(es[0], o) && KeysStand(es[1..]) && AloneThroughout(c, a, es, o)
    requires OnTrial(a, o, k, frame, ring) && Inv(c, a) && Inv(c, Step(c, a, es[0])) && forall i | 0 <= i < k :: Fits(c, ring[i], frame).None?
    ensures o in Exec(c, a, es).streams
    ensures Exec(c, a, es).streams[o].told == Some(NO_MATCH) ==> forall i | 0 <= i < |ring| :: Fits(c, ring[i], frame).None?
    decreases |es|, 0
  {
    hide Step, Enabled, OnTrial, Fits, KeysStand, Inv, OtherwiseEnded, Alone, BoundTo;
    var b := Step(c, a, es[0]);
    StaysPut(c, a, es, o);
    OnTrialBound(a, o, k, frame, ring);
    if Fits(c, ring[k], frame).Some? {
      TrialOfFittingEntry(c, a, o, k, frame, ring, es[0].salt);
      assert es[0] == TrialSettles(o, es[0].salt);
      EndedRuns(c, b, es[1..], o);
      EndedIsNotNoMatch(Exec(c, b, es[1..]).streams[o]);
    } else if k + 1 < |ring| {
      NextEntryIsTried(c, a, o, k, frame, ring, es[0].salt);
      assert es[0] == TrialSettles(o, es[0].salt);
      GivenUpOnlyAfterAll(c, b, es[1..], o, k + 1, frame, ring);
    }
  }

  lemma OnTrialBound(a: Agent, o: nat, k: nat, frame: seq<Byte>, ring: seq<KeyEntry>)
    requires OnTrial(a, o, k, frame, ring)
    ensures k < |ring|
  {
  }

  lemma TrialOfFittingEntry(c: Config, a: Agent, o: nat, k: nat, frame: seq<Byte>, ring: seq<KeyEntry>, salt: Salt)
    requires Inv(c, a) && OnTrial(a, o, k, frame, ring) && Fits(c, ring[k], frame).Some?
    ensures var b := Step(c, a, TrialSettles(o, salt));
            Enabled(a, TrialSettles(o, salt)) && o in b.streams && OtherwiseEnded(b.streams[o])
  {
    FittingEntryBinds(c, a, o, k, frame, ring, salt);
    hide Step, Enabled, Inv, Fits;
  }

  lemma {:induction false} StaysPut(c: Config, a: Agent, es: seq<Event>, o: nat)
    requires AllEnabled(c, a, es) && AloneThroughout(c, a, es, o)
    ensures o in Exec(c, a, es).streams
    decreases |es|
  {
    if es != [] {
      hide Step, Enabled;
      StaysPut(c, Step(c, a, es[0]), es[1..], o);
    }
  }

  /** Main result: while the keyring stands and no other stream is given its id, a stream is told that no pairing matches
    * only if no entry of the keyring fits its first frame. */
  lemma NoMatchOnlyIfNoneFits(c: Config, a: Agent, es: seq<Event>, o: nat, frame: seq<Byte>)
    requires Inv(c, a) && OnTrial(a, o, 0, frame, a.keyring) && AllEnabled(c, a, es) && KeysStand(es) && AloneThroughout(c, a, es, o)
    ensures o in Exec(c, a, es).streams
    ensures Exec(c, a, es).streams[o].told == Some(NO_MATCH) ==> forall i | 0 <= i < |a.keyring| :: Fits(c, a.keyring[i], frame).None?
  {
    GivenUpOnlyAfterAll(c, a, es, o, 0, frame, a.keyring);
  }

  // ---------------------------------------------------------------------------
  // A bound stream's frames and lines
  // ---------------------------------------------------------------------------

  /** A frame that opens is written, and the stream goes on; one that does not ends it. */
  lemma OpenedFrameIsWritten(c: Config, st: Stream)
    requires st.phase.Opening? && st.opener.Some? && (st.localOpen ==> st.toLocal == [])
    ensures var r := OnOpenSettled(c, st);
            match Open(c.cipher, st.opener.value, st.phase.frame)
            case Some((opener, plaintext)) =>
              && r.drop.None? && r.stream.phase.Idle? && r.stream.opener == Some(opener) && r.stream.sent == st.sent && r.stream.jobs == st.jobs
              && Written(r.stream) == Written(st) + if st.closed then [] else [c.text(plaintext)]
            case None => r == Outcome(st.(phase := Idle), Some("frame authentication failed"))
  {
    hide Open;
    var read := Open(c.cipher, st.opener.value, st.phase.frame);
    if read.Some? && !st.closed {
      LineAtTheEnd(st.(opener := Some(read.value.0), phase := Idle), c.text(read.value.1));
      WrittenOnly(st, Idle);
    }
  }

  lemma LineAtTheEnd(st: Stream, line: Line)
    requires st.localOpen ==> st.toLocal == []
    ensures var t := WriteLocal(st, line);
            Written(t) == Written(st) + [line] && t.phase == st.phase && t.opener == st.opener && t.sent == st.sent && t.jobs == st.jobs
  {
    assert Written(WriteLocal(st, line)) == Written(st) + [line];
  }

  /** A line that was sealed is sent, unless the stream closed meanwhile, and the next one held is sealed; a seal that
    * fails ends the stream. */
  lemma SealedLineIsSent(c: Config, st: Stream)
    requires (st.phase.Sealing? || st.phase.Flushing?) && st.sealer.Some?
    ensures var r := OnSealSettled(c, st, true);
            && r.stream.sent == st.sent + (if st.closed then [] else [Encode(st.phase.frame)]) && Written(r.stream) == Written(st)
            && (st.phase.Sealing? || st.phase.held == [] ==> r.drop.None? && r.stream.phase.Idle?)
            && (st.phase.Flushing? && st.phase.held != [] && st.sealer.value.counter <= MAX_COUNTER ==>
                  r.drop.None? && r.stream.phase.Flushing? && r.stream.phase.line == st.phase.held[0] && r.stream.phase.held == st.phase.held[1..])
    ensures OnSealSettled(c, st, false).drop.Some? && OnSealSettled(c, st, false).stream == st.(phase := Idle)
  {
    hide FrameAt, Encode;
  }

  /** A line with a key is sealed under the next counter; one without waits. */
  lemma LineIsSealedOrHeld(c: Config, st: Stream, keyring: seq<KeyEntry>, line: Line)
    requires st.phase.Idle? && st.jobs != [] && st.jobs[0] == SealJob(line)
    ensures var r := OnJobStart(c, st, keyring);
            && r.stream.jobs == st.jobs[1..]
            && (st.sealer.None? ==> r.drop.None? && r.stream.toBroker == st.toBroker + [line] && r.stream.phase.Idle?)
            && (st.sealer.Some? && st.sealer.value.counter <= MAX_COUNTER ==>
                  && r.drop.None? && r.stream.phase.Sealing? && r.stream.phase.line == line
                  && r.stream.sealer == Some(st.sealer.value.(counter := st.sealer.value.counter + 1)))
            && (st.sealer.Some? && st.sealer.value.counter > MAX_COUNTER ==> r.drop.Some?)
  {
    hide FrameAt;
  }

  /** The gate's answer, on a stream still open: a yes writes the line that waited and flushes what was held, a no or a
    * throw ends the stream. */
  lemma GateAnswers(c: Config, st: Stream)
    requires st.phase.Asking? && st.sealer.Some? && !st.closed && (st.localOpen ==> st.toLocal == [])
    ensures var r := OnGateSettled(c, st, Yes);
            Written(r.stream) == Written(st) + [st.phase.line] && r.stream.admitted && r.stream.toBroker == [] && r.stream.told == st.told
    ensures st.toBroker == [] ==> OnGateSettled(c, st, Yes).drop.None? && OnGateSettled(c, st, Yes).stream.phase.Idle?
    ensures st.toBroker != [] && st.sealer.value.counter <= MAX_COUNTER ==>
              && OnGateSettled(c, st, Yes).drop.None? && OnGateSettled(c, st, Yes).stream.phase.Flushing?
              && OnGateSettled(c, st, Yes).stream.phase.line == st.toBroker[0] && OnGateSettled(c, st, Yes).stream.phase.held == st.toBroker[1..]
    ensures OnGateSettled(c, st, No) == Outcome(st.(phase := Idle), Some("not approved"))
    ensures OnGateSettled(c, st, Threw) == Outcome(st.(phase := Idle), Some("open failed"))
  {
    LetThroughBinds(c, st, st.phase.line);
    LetThroughFlushes(c, st, st.phase.line);
    hide LetThrough;
  }

  lemma LetThroughFlushes(c: Config, st: Stream, line: Line)
    requires st.sealer.Some?
    ensures var r := LetThrough(c, st, line);
            && (st.toBroker == [] ==> r.drop.None? && r.stream.phase.Idle?)
            && (st.toBroker != [] && st.sealer.value.counter <= MAX_COUNTER ==>
                  r.drop.None? && r.stream.phase.Flushing? && r.stream.phase.line == st.toBroker[0] && r.stream.phase.held == st.toBroker[1..])
  {
    hide FrameAt;
  }

  /** A frame joins the chain of the live stream its id names. */
  lemma ArrivalsJoinTheChain(c: Config, a: Agent, id: StreamId, data: Data)
    ensures var b := Step(c, a, FrameArrives(id, data));
            var live := id in a.byId && a.byId[id] in a.streams && !a.streams[a.byId[id]].closed;
            && (!live ==> b == a)
            && (live ==> b.streams == a.streams[a.byId[id] := a.streams[a.byId[id]].(jobs := a.streams[a.byId[id]].jobs + [OpenJob(data)],
                                                                                    arrived := a.streams[a.byId[id]].arrived + [data])])
  {
  }

  /** A browser's close, a relay's close and a teardown close live streams; the relay's tells the browser. */
  lemma ClosesClose(c: Config, a: Agent, id: StreamId)
    requires Inv(c, a)
    ensures var b := Step(c, a, StreamCloses(id));
            && id !in b.byId && (id in a.byId ==> a.byId[id] in b.streams && b.streams[a.byId[id]].closed)
    ensures Step(c, a, TornDown).byId == map[] && forall o | o in Step(c, a, TornDown).streams :: Step(c, a, TornDown).streams[o].closed
    ensures forall o | o in a.streams && !a.streams[o].closed ::
              var b := Step(c, a, LocalCloses(o));
              o in b.streams && b.streams[o].closed && b.streams[o].told == Some("local closed")
  {
    if id in a.byId { assert IdOk(a, id) && RecordOk(c, a, a.byId[id]); }
    hide StreamOk;
    forall o | o in a.streams && !a.streams[o].closed
      ensures a.streams[o].id in a.byId && a.byId[a.streams[o].id] == o
    {
      assert RecordOk(c, a, o);
    }
  }

  /** Removing a device's keys closes its live streams as revoked and drops its entries, and touches nothing else. */
  lemma RemovalTouchesOnlyTheDevice(c: Config, a: Agent, gone: Device, o: nat)
    requires Inv(c, a) && o in a.streams
    ensures var b := Step(c, a, KeysRemoved(gone));
            && o in b.streams && b.nextStream == a.nextStream
            && (a.streams[o].device == Some(gone) && !a.streams[o].closed ==>
                  b.streams[o] == a.streams[o].(closed := true, told := Some("revoked")) && a.streams[o].id !in b.byId)
            && (a.streams[o].device != Some(gone) || a.streams[o].closed ==>
                  b.streams[o] == a.streams[o] && (!a.streams[o].closed ==> a.streams[o].id in b.byId && b.byId[a.streams[o].id] == o))
            && (forall e :: e in b.keyring <==> e in a.keyring && e.device != Some(gone))
  {
    WithoutDeviceFacts(a.keyring, gone);
    assert RecordOk(c, a, o);
    if !a.streams[o].closed { assert IdOk(a, a.streams[o].id); }
    hide StreamOk, WithoutDevice;
  }

  /** The keyring keeps the newest sixty-four. */
  lemma NewestKeysStay(ring: seq<KeyEntry>, entry: KeyEntry)
    requires |ring| <= 64
    ensures AddKeys(ring, entry) == (if |ring| == 64 then ring[1..] else ring) + [entry]
  {
    assert |ring| == 64 ==> (ring + [entry])[1..] == ring[1..] + [entry];
  }
}
