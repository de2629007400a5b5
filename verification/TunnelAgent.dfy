/** The tunnel agent's streams (apps/cli/src/tunnel-agent.ts).

  A stream is a record reached through an id; its promise chain is a queue of jobs and at most one
  running job, suspended at one of its awaits. Every callback, and the code from one await to the next,
  is a step. `streams` holds every record ever made, `byId` is the agent's own map of live ones.
 */
module TunnelAgent {
  import opened Options
  import opened Bytes
  import opened Frames

  type StreamId = string
  type Device = string
  type Line = string
  type Data = string

  datatype KeyEntry = KeyEntry(c2s: Key, s2c: Key, device: Option<Device>)

  /** `gated` says whether `admitStream` is installed; `utf8` and `text` are the text codec. */
  datatype Config = Config(cipher: Cipher, utf8: Line -> seq<Byte>, text: seq<Byte> -> Line, gated: bool)

  const MAX_KEYRING := 64

  datatype Job = OpenJob(data: Data) | SealJob(line: Line)

  /** Where the running job is suspended. */
  datatype Phase =
    | Idle
    | Trying(index: nat, entry: KeyEntry, frame: seq<Byte>)
    | Asking(line: Line)
    | Opening(frame: seq<Byte>)
    | Sealing(line: Line, frame: seq<Byte>)
    | Flushing(line: Line, frame: seq<Byte>, held: seq<Line>)

  /** `localOut` is what went to loopback and `sent` what went to the broker, in order; `told` is the reason
    * of the stream's `stream:close`, if one was sent. `arrived`, `relayed` and `admitted` only remember:
    * the frames and relay lines that reached the stream, and that it was let through. */
  datatype Stream = Stream(
    id: StreamId, opener: Option<Opener>, sealer: Option<Sealer>, device: Option<Device>,
    localOpen: bool, toLocal: seq<Line>, toBroker: seq<Line>, closed: bool,
    jobs: seq<Job>, phase: Phase,
    localOut: seq<Line>, sent: seq<Data>, told: Option<string>,
    arrived: seq<Data>, relayed: seq<Line>, admitted: bool)

  function NewStream(id: StreamId): Stream {
    Stream(id, None, None, None, false, [], [], false, [], Idle, [], [], None, [], [], false)
  }

  datatype Agent = Agent(streams: map<nat, Stream>, byId: map<StreamId, nat>, nextStream: nat, keyring: seq<KeyEntry>)

  const START := Agent(map[], map[], 0, [])

  datatype Verdict = Yes | No | Threw

  datatype Event =
    | StreamOpens(id: StreamId)
    | FrameArrives(id: StreamId, data: Data)
    | StreamCloses(id: StreamId)
    | TornDown
    | KeysAdded(entry: KeyEntry)
    | KeysRemoved(gone: Device)
    | LocalOpens(stream: nat)
    | LocalSays(stream: nat, line: Line)
    | LocalCloses(stream: nat)
    | JobStarts(stream: nat)
    | TrialSettles(stream: nat, salt: Salt)
    | GateSettles(stream: nat, verdict: Verdict)
    | OpenSettles(stream: nat)
    | SealSettles(stream: nat, sealed: bool)

  // ---------------------------------------------------------------------------
  // What one stream's callbacks do. The second result asks for `dropStream`.
  // ---------------------------------------------------------------------------

  datatype Outcome = Outcome(stream: Stream, drop: Option<string>)

  function Keep(st: Stream): Outcome {
    Outcome(st, None)
  }

  function WriteLocal(st: Stream, line: Line): Stream {
    if st.localOpen then st.(localOut := st.localOut + [line]) else st.(toLocal := st.toLocal + [line])
  }

  function OnLocalOpen(st: Stream): Stream {
    st.(localOpen := true, localOut := st.localOut + st.toLocal, toLocal := [])
  }

  function OnLocalMessage(st: Stream, line: Line): Stream {
    st.(jobs := st.jobs + [SealJob(line)], relayed := st.relayed + [line])
  }

  function OnFrame(st: Stream, data: Data): Stream {
    st.(jobs := st.jobs + [OpenJob(data)], arrived := st.arrived + [data])
  }

  /** The head of the trial loop: the keyring is read afresh each time round. */
  function TryFrom(st: Stream, keyring: seq<KeyEntry>, index: nat, frame: seq<Byte>): Outcome {
    if index < |keyring| then Keep(st.(phase := Trying(index, keyring[index], frame)))
    else Outcome(st.(phase := Idle), Some("no matching pairing"))
  }

  function StartOpen(st: Stream, keyring: seq<KeyEntry>, data: Data): Outcome {
    match Decode(data)
    case None => Outcome(st.(phase := Idle), Some("malformed frame"))
    case Some(frame) => if st.opener.None? then TryFrom(st, keyring, 0, frame) else Keep(st.(phase := Opening(frame)))
  }

  function StartSeal(c: Config, st: Stream, line: Line): Outcome {
    if st.sealer.None? then Keep(st.(phase := Idle, toBroker := st.toBroker + [line]))
    else
      match Seal(c.cipher, st.sealer.value, c.utf8(line))
      case None => Outcome(st.(phase := Idle), Some("seal failed"))
      case Some((sealer, frame)) => Keep(st.(sealer := Some(sealer), phase := Sealing(line, frame)))
  }

  function OnJobStart(c: Config, st: Stream, keyring: seq<KeyEntry>): Outcome
    requires st.phase.Idle? && st.jobs != []
  {
    var t := st.(jobs := st.jobs[1..]);
    match st.jobs[0]
    case OpenJob(data) => StartOpen(t, keyring, data)
    case SealJob(line) => StartSeal(c, t, line)
  }

  /** The flush of what the relay said before the key was known. */
  function FlushNext(c: Config, st: Stream, held: seq<Line>): Outcome
    requires st.sealer.Some?
  {
    if held == [] then Keep(st.(phase := Idle))
    else
      match Seal(c.cipher, st.sealer.value, c.utf8(held[0]))
      case None => Outcome(st.(phase := Idle), Some("open failed"))
      case Some((sealer, frame)) => Keep(st.(sealer := Some(sealer), phase := Flushing(held[0], frame, held[1..])))
  }

  function LetThrough(c: Config, st: Stream, line: Line): Outcome
    requires st.sealer.Some?
  {
    var t := WriteLocal(st.(admitted := true), line);
    FlushNext(c, t.(toBroker := []), t.toBroker)
  }

  function OnTrialSettled(c: Config, st: Stream, keyring: seq<KeyEntry>, salt: Salt): Outcome
    requires st.phase.Trying?
  {
    match Bind(c.cipher, st.phase.entry.c2s, C2S, st.phase.frame)
    case None => TryFrom(st, keyring, st.phase.index + 1, st.phase.frame)
    case Some((opener, plaintext)) =>
      if st.closed then Keep(st.(phase := Idle))
      else
        var bound := st.(opener := Some(opener), sealer := Some(Sealer(st.phase.entry.s2c, S2C, salt, 0)), device := st.phase.entry.device);
        if c.gated then Keep(bound.(phase := Asking(c.text(plaintext))))
        else LetThrough(c, bound, c.text(plaintext))
  }

  function OnGateSettled(c: Config, st: Stream, verdict: Verdict): Outcome
    requires st.phase.Asking? && st.sealer.Some?
  {
    match verdict
    case Threw => Outcome(st.(phase := Idle), Some("open failed"))
    case No => Outcome(st.(phase := Idle), if st.closed then None else Some("not approved"))
    case Yes => if st.closed then Keep(st.(phase := Idle)) else LetThrough(c, st, st.phase.line)
  }

  function OnOpenSettled(c: Config, st: Stream): Outcome
    requires st.phase.Opening? && st.opener.Some?
  {
    match Open(c.cipher, st.opener.value, st.phase.frame)
    case None => Outcome(st.(phase := Idle), Some("frame authentication failed"))
    case Some((opener, plaintext)) =>
      var t := st.(opener := Some(opener), phase := Idle);
      Keep(if st.closed then t else WriteLocal(t, c.text(plaintext)))
  }

  function SendSealed(st: Stream, frame: seq<Byte>): Stream {
    if st.closed then st else st.(sent := st.sent + [Encode(frame)])
  }

  function OnSealSettled(c: Config, st: Stream, sealed: bool): Outcome
    requires (st.phase.Sealing? || st.phase.Flushing?) && st.sealer.Some?
  {
    if !sealed then Outcome(st.(phase := Idle), Some(if st.phase.Sealing? then "seal failed" else "open failed"))
    else if st.phase.Sealing? then Keep(SendSealed(st, st.phase.frame).(phase := Idle))
    else FlushNext(c, SendSealed(st, st.phase.frame), st.phase.held)
  }

  // ---------------------------------------------------------------------------
  // The agent
  // ---------------------------------------------------------------------------

  /** `dropStream` goes by id: it closes whichever record the id names now. */
  function DropStream(a: Agent, id: StreamId, reason: string, tellBroker: bool): Agent {
    if id !in a.byId || a.byId[id] !in a.streams || a.streams[a.byId[id]].closed then a
    else
      var o := a.byId[id];
      a.(streams := a.streams[o := Closed(a.streams[o], reason, tellBroker)], byId := a.byId - {id})
  }

  function Closed(st: Stream, reason: string, tellBroker: bool): Stream {
    st.(closed := true, told := if tellBroker then Some(reason) else st.told)
  }

  function Put(a: Agent, o: nat, r: Outcome): Agent {
    var t := a.(streams := a.streams[o := r.stream]);
    if r.drop.Some? then DropStream(t, r.stream.id, r.drop.value, true) else t
  }

  function DropAll(a: Agent): Agent {
    a.(streams := map o | o in a.streams ::
         if a.streams[o].id in a.byId && a.byId[a.streams[o].id] == o && !a.streams[o].closed
         then Closed(a.streams[o], "agent shutting down", false) else a.streams[o],
       byId := map[])
  }

  function AddKeys(keyring: seq<KeyEntry>, entry: KeyEntry): seq<KeyEntry> {
    var longer := keyring + [entry];
    if |longer| > MAX_KEYRING then longer[1..] else longer
  }

  function WithoutDevice(keyring: seq<KeyEntry>, gone: Device): seq<KeyEntry> {
    if keyring == [] then []
    else if keyring[0].device == Some(gone) then WithoutDevice(keyring[1..], gone)
    else [keyring[0]] + WithoutDevice(keyring[1..], gone)
  }

  /** The live record an id names, if its stream is bound to the device. */
  predicate BoundLive(a: Agent, o: nat, gone: Device)
    requires o in a.streams
  {
    a.streams[o].device == Some(gone) && a.streams[o].id in a.byId && a.byId[a.streams[o].id] == o && !a.streams[o].closed
  }

  function RemoveKeys(a: Agent, gone: Device): Agent {
    a.(keyring := WithoutDevice(a.keyring, gone),
       streams := map o | o in a.streams :: if BoundLive(a, o, gone) then Closed(a.streams[o], "revoked", true) else a.streams[o],
       byId := map id | id in a.byId && !(a.byId[id] in a.streams && a.streams[a.byId[id]].id == id && BoundLive(a, a.byId[id], gone)) :: a.byId[id])
  }

  predicate Enabled(a: Agent, e: Event) {
    match e
    case StreamOpens(id) => id !in a.byId
    case LocalOpens(o) => o in a.streams && !a.streams[o].localOpen
    case LocalSays(o, _) => o in a.streams
    case LocalCloses(o) => o in a.streams
    case JobStarts(o) => o in a.streams && a.streams[o].phase.Idle? && a.streams[o].jobs != []
    case TrialSettles(o, _) => o in a.streams && a.streams[o].phase.Trying?
    case GateSettles(o, _) => o in a.streams && a.streams[o].phase.Asking? && a.streams[o].sealer.Some?
    case OpenSettles(o) => o in a.streams && a.streams[o].phase.Opening? && a.streams[o].opener.Some?
    case SealSettles(o, _) => o in a.streams && (a.streams[o].phase.Sealing? || a.streams[o].phase.Flushing?) && a.streams[o].sealer.Some?
    case _ => true
  }

  /** Everything a step can do, whether or not the broker reuses the id of a live stream. */
  function Step(c: Config, a: Agent, e: Event): Agent
    requires e.StreamOpens? || Enabled(a, e)
  {
    match e
    case StreamOpens(id) => a.(streams := a.streams[a.nextStream := NewStream(id)], byId := a.byId[id := a.nextStream], nextStream := a.nextStream + 1)
    case FrameArrives(id, data) =>
      if id !in a.byId || a.byId[id] !in a.streams || a.streams[a.byId[id]].closed then a
      else Put(a, a.byId[id], Keep(OnFrame(a.streams[a.byId[id]], data)))
    case StreamCloses(id) => DropStream(a, id, "browser closed", false)
    case TornDown => DropAll(a)
    case KeysAdded(entry) => a.(keyring := AddKeys(a.keyring, entry))
    case KeysRemoved(gone) => RemoveKeys(a, gone)
    case LocalOpens(o) => Put(a, o, Keep(OnLocalOpen(a.streams[o])))
    case LocalSays(o, line) => Put(a, o, Keep(OnLocalMessage(a.streams[o], line)))
    case LocalCloses(o) => if a.streams[o].closed then a else DropStream(a, a.streams[o].id, "local closed", true)
    case JobStarts(o) => Put(a, o, OnJobStart(c, a.streams[o], a.keyring))
    case TrialSettles(o, salt) => Put(a, o, OnTrialSettled(c, a.streams[o], a.keyring, salt))
    case GateSettles(o, verdict) => Put(a, o, OnGateSettled(c, a.streams[o], verdict))
    case OpenSettles(o) => Put(a, o, OnOpenSettled(c, a.streams[o]))
    case SealSettles(o, sealed) => Put(a, o, OnSealSettled(c, a.streams[o], sealed))
  }
}
