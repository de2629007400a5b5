/** What a stream delivers: all of it once it is at rest, and told from the events that reached it. */
module TunnelDelivery {
  import opened Options
  import opened Bytes
  import opened Frames
  import opened TunnelAgent
  import opened TunnelProofs
  import opened TunnelRuns

  // ---------------------------------------------------------------------------
  // What reached a stream
  // ---------------------------------------------------------------------------

  /** The frame is for this stream: the id names it, and it is live. */
  predicate IsFrameFor(a: Agent, e: Event, o: nat) {
    e.FrameArrives? && e.id in a.byId && a.byId[e.id] == o && o in a.streams && !a.streams[o].closed
  }

  /** The frames that arrived for the stream, in order. */
  function FramesFor(c: Config, a: Agent, es: seq<Event>, o: nat): seq<Data>
    requires AllEnabled(c, a, es)
    decreases |es|
  {
    if es == [] then [] else (if IsFrameFor(a, es[0], o) then [es[0].data] else []) + FramesFor(c, Step(c, a, es[0]), es[1..], o)
  }

  /** The lines the relay said on the stream's socket, in order. */
  function LinesFor(es: seq<Event>, o: nat): seq<Line> {
    if es == [] then [] else (if es[0].LocalSays? && es[0].stream == o then [es[0].line] else []) + LinesFor(es[1..], o)
  }

  function ArrivedAt(a: Agent, o: nat): seq<Data> {
    if o in a.streams then a.streams[o].arrived else []
  }

  function RelayedAt(a: Agent, o: nat): seq<Line> {
    if o in a.streams then a.streams[o].relayed else []
  }

  predicate SameMemory(s: Stream, t: Stream) {
    t.arrived == s.arrived && t.relayed == s.relayed
  }

  lemma PutRemembers(a: Agent, x: nat, r: Outcome, o: nat)
    requires x in a.streams
    ensures var b := Put(a, x, r);
            && ArrivedAt(b, o) == (if o == x then r.stream.arrived else ArrivedAt(a, o))
            && RelayedAt(b, o) == (if o == x then r.stream.relayed else RelayedAt(a, o))
  {
  }

  lemma JobKeepsMemory(c: Config, st: Stream, keyring: seq<KeyEntry>)
    requires st.phase.Idle? && st.jobs != []
    ensures SameMemory(st, OnJobStart(c, st, keyring).stream)
  {
    hide Decode, FrameAt;
  }

  lemma TrialKeepsMemory(c: Config, st: Stream, keyring: seq<KeyEntry>, salt: Salt)
    requires st.phase.Trying?
    ensures SameMemory(st, OnTrialSettled(c, st, keyring, salt).stream)
  {
    hide FrameAt, Bind;
  }

  lemma GateKeepsMemory(c: Config, st: Stream, verdict: Verdict)
    requires st.phase.Asking? && st.sealer.Some?
    ensures SameMemory(st, OnGateSettled(c, st, verdict).stream)
  {
    hide FrameAt;
  }

  lemma OpenKeepsMemory(c: Config, st: Stream)
    requires st.phase.Opening? && st.opener.Some?
    ensures SameMemory(st, OnOpenSettled(c, st).stream)
  {
    hide Open;
  }

  lemma SealKeepsMemory(c: Config, st: Stream, sealed: bool)
    requires (st.phase.Sealing? || st.phase.Flushing?) && st.sealer.Some?
    ensures SameMemory(st, OnSealSettled(c, st, sealed).stream)
  {
    hide FrameAt, Encode;
  }

  predicate IsJob(e: Event) {
    e.JobStarts? || e.TrialSettles? || e.GateSettles? || e.OpenSettles? || e.SealSettles?
  }

  /** No job changes what a stream remembers. */
  lemma JobRemembers(c: Config, a: Agent, e: Event, o: nat)
    requires Enabled(a, e) && IsJob(e)
    ensures ArrivedAt(Step(c, a, e), o) == ArrivedAt(a, o) && RelayedAt(Step(c, a, e), o) == RelayedAt(a, o)
  {
    hide OnJobStart, OnTrialSettled, OnGateSettled, OnOpenSettled, OnSealSettled, Put;
    match e
    case JobStarts(x) => JobKeepsMemory(c, a.streams[x], a.keyring); PutRemembers(a, x, OnJobStart(c, a.streams[x], a.keyring), o);
    case TrialSettles(x, salt) => TrialKeepsMemory(c, a.streams[x], a.keyring, salt); PutRemembers(a, x, OnTrialSettled(c, a.streams[x], a.keyring, salt), o);
    case GateSettles(x, verdict) => GateKeepsMemory(c, a.streams[x], verdict); PutRemembers(a, x, OnGateSettled(c, a.streams[x], verdict), o);
    case OpenSettles(x) => OpenKeepsMemory(c, a.streams[x]); PutRemembers(a, x, OnOpenSettled(c, a.streams[x]), o);
    case SealSettles(x, sealed) => SealKeepsMemory(c, a.streams[x], sealed); PutRemembers(a, x, OnSealSettled(c, a.streams[x], sealed), o);
    case _ =>
  }

  lemma StepRemembers(c: Config, a: Agent, e: Event, o: nat)
    requires Enabled(a, e) && (o in a.streams ==> o < a.nextStream)
    ensures var b := Step(c, a, e);
            && (o in b.streams ==> o < b.nextStream)
            && ArrivedAt(b, o) == ArrivedAt(a, o) + (if IsFrameFor(a, e, o) then [e.data] else [])
            && RelayedAt(b, o) == RelayedAt(a, o) + (if e.LocalSays? && e.stream == o then [e.line] else [])
  {
    hide OnJobStart, OnTrialSettled, OnGateSettled, OnOpenSettled, OnSealSettled, AddKeys, WithoutDevice, Put;
    StepKeepsOrder(c, a, e, o);
    match e
    case FrameArrives(id, data) =>
      if id in a.byId && a.byId[id] in a.streams && !a.streams[a.byId[id]].closed { PutRemembers(a, a.byId[id], Keep(OnFrame(a.streams[a.byId[id]], data)), o); }
    case LocalOpens(x) => PutRemembers(a, x, Keep(OnLocalOpen(a.streams[x])), o);
    case LocalSays(x, line) => PutRemembers(a, x, Keep(OnLocalMessage(a.streams[x], line)), o);
    case _ => if IsJob(e) { JobRemembers(c, a, e, o); }
  }

  /** Records are numbered in the order they are made. */
  lemma StepKeepsOrder(c: Config, a: Agent, e: Event, o: nat)
    requires Enabled(a, e) && (o in a.streams ==> o < a.nextStream)
    ensures o in Step(c, a, e).streams ==> o < Step(c, a, e).nextStream
  {
    hide OnJobStart, OnTrialSettled, OnGateSettled, OnOpenSettled, OnSealSettled, AddKeys, WithoutDevice;
  }

  lemma {:induction false} RunsRememberFrames(c: Config, a: Agent, es: seq<Event>, o: nat)
    requires AllEnabled(c, a, es) && (o in a.streams ==> o < a.nextStream)
    ensures ArrivedAt(Exec(c, a, es), o) == ArrivedAt(a, o) + FramesFor(c, a, es, o)
    decreases |es|
  {
    hide Step, Enabled, ArrivedAt, RelayedAt, IsFrameFor;
    if es != [] {
      StepRemembers(c, a, es[0], o);
      RunsRememberFrames(c, Step(c, a, es[0]), es[1..], o);
    }
  }

  lemma {:induction false} RunsRememberLines(c: Config, a: Agent, es: seq<Event>, o: nat)
    requires AllEnabled(c, a, es) && (o in a.streams ==> o < a.nextStream)
    ensures RelayedAt(Exec(c, a, es), o) == RelayedAt(a, o) + LinesFor(es, o)
    decreases |es|
  {
    hide Step, Enabled, ArrivedAt, RelayedAt, IsFrameFor;
    if es != [] {
      StepRemembers(c, a, es[0], o);
      RunsRememberLines(c, Step(c, a, es[0]), es[1..], o);
    }
  }

  // ---------------------------------------------------------------------------
  // Main results
  // ---------------------------------------------------------------------------

  /** Main result: in every run, what is written to loopback is what the first frames that arrived for the stream say, and
    * what is sent to the broker is the first lines the relay said on its socket, sealed in order; and once an open stream is
    * at rest that is all of them: nothing is lost. A stream at rest that no frame has reached holds all the lines. */
  lemma NothingIsLostAtRest(c: Config, es: seq<Event>, o: nat)
    requires AllEnabled(c, START, es) && o in Exec(c, START, es).streams
    ensures var st := Exec(c, START, es).streams[o];
            var frames, lines := FramesFor(c, START, es, o), LinesFor(es, o);
            && (st.admitted ==>
                  && st.opener.Some? && st.sealer.Some? && |Written(st)| <= |frames|
                  && Reads(c, st.opener.value.key, frames[..|Written(st)|], Written(st)) && Seals(c, st.sealer.value.key, st.sealer.value.salt, st.sent, lines))
            && (!st.closed && st.phase.Idle? && st.jobs == [] ==>
                  && |Written(st)| == |frames|
                  && (if frames == [] then st.sent == [] && st.toBroker == lines else st.admitted && |st.sent| == |lines|))
  {
    RunsRememberFrames(c, START, es, o);
    RunsRememberLines(c, START, es, o);
    ExactFifo(c, es, o);
    StreamOfRun(c, es, o);
    hide Exec, AllEnabled, Reads, Seals, FramesFor, LinesFor, Written, StreamOk;
    AtRest(c, Exec(c, START, es).streams[o]);
    assert Exec(c, START, es).streams[o].arrived == FramesFor(c, START, es, o);
    assert Exec(c, START, es).streams[o].relayed == LinesFor(es, o);
  }

  lemma StreamOfRun(c: Config, es: seq<Event>, o: nat)
    requires AllEnabled(c, START, es) && o in Exec(c, START, es).streams
    ensures StreamOk(c, Exec(c, START, es).streams[o])
  {
    RunsKeepInv(c, START, es);
    assert RecordOk(c, Exec(c, START, es), o);
  }

  lemma AtRest(c: Config, st: Stream)
    requires StreamOk(c, st)
    ensures !st.closed && st.phase.Idle? && st.jobs == [] ==>
              && |Written(st)| == |st.arrived|
              && (if st.arrived == [] then st.sent == [] && st.toBroker == st.relayed else st.admitted && |st.sent| == |st.relayed|)
  {
    hide Reads, Seals, OpenAll, Decoded, SealerOk;
    if !st.closed && st.phase.Idle? && st.jobs == [] {
      assert OpenDatas(st.jobs) == [] && SealLines(st.jobs) == [];
      if Unbound(st) {
        assert st.arrived[0..] == st.arrived;
      } else {
        assert Flowing(c, st);
        assert |st.arrived[|Written(st)|..]| == 0 && |st.relayed[|st.sent|..]| == 0;
      }
    }
  }

  // ---------------------------------------------------------------------------
  // The start of a job
  // ---------------------------------------------------------------------------

  /** A frame that is not base64url ends the stream; one on a bound stream goes on to be opened. */
  lemma FrameJobStarts(c: Config, st: Stream, keyring: seq<KeyEntry>, data: Data)
    requires st.phase.Idle? && st.jobs != [] && st.jobs[0] == OpenJob(data)
    ensures var r := OnJobStart(c, st, keyring);
            && r.stream.jobs == st.jobs[1..]
            && (Decode(data).None? ==> r.drop == Some("malformed frame"))
            && (Decode(data).Some? && st.opener.Some? ==> r.drop.None? && r.stream.phase == Opening(Decode(data).value))
            && (Decode(data).Some? && st.opener.None? && keyring == [] ==> r.drop == Some("no matching pairing"))
  {
    hide Decode;
  }

  /** The socket to the relay opening hands over what was held for it, in order. */
  lemma OpeningHandsOver(c: Config, a: Agent, o: nat)
    requires Enabled(a, LocalOpens(o))
    ensures var b := Step(c, a, LocalOpens(o));
            && o in b.streams && b.streams[o].localOpen && b.streams[o].toLocal == []
            && b.streams[o].localOut == a.streams[o].localOut + a.streams[o].toLocal
  {
  }

  /** A new stream is live under its id and nothing has crossed it. */
  lemma StreamsStartEmpty(c: Config, a: Agent, id: StreamId)
    requires Inv(c, a) && Enabled(a, StreamOpens(id))
    ensures var b := Step(c, a, StreamOpens(id));
            && a.nextStream !in a.streams && a.nextStream in b.streams && id in b.byId && b.byId[id] == a.nextStream
            && b.streams[a.nextStream].id == id && !b.streams[a.nextStream].closed && b.streams[a.nextStream].opener.None?
            && Written(b.streams[a.nextStream]) == [] && b.streams[a.nextStream].sent == []
            && (forall x | x in a.streams :: x in b.streams && b.streams[x] == a.streams[x])
  {
    forall x | x in a.streams ensures x != a.nextStream { assert RecordOk(c, a, x); }
  }
}
