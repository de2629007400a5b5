/** A signed-in browser asking one of its machines to let it in, through the broker
  (apps/api/src/broker.ts: `pairRequest`, `attachRequestSocket`, the agent's replies, `sweepAll`).
 */
module AccessRequests {
  import opened Options

  type RequestId = string
  type Device = string
  type Socket = nat

  datatype Reply = Ack | Approved | Denied

  datatype Request = Request(device: Device, expiresAt: int, forwarded: bool, browser: Option<Socket>, pending: seq<Reply>)

  datatype Config = Config(requestTtl: int, maxPending: nat)

  const BROKER := Config(120_000, 8)

  /** `Replied` is a reply the broker took, `Sent` one that went out on the browser's socket. */
  datatype Entry =
    | Asked(id: RequestId, device: Device)
    | Attached(id: RequestId, socket: Socket)
    | Forwarded(id: RequestId, device: Device)
    | Revealed(id: RequestId, device: Device)
    | Replied(id: RequestId, device: Device, reply: Reply)
    | Sent(id: RequestId, reply: Reply)

  datatype State = State(requests: map<RequestId, Request>, pendingByDevice: map<Device, RequestId>, log: seq<Entry>)

  const START := State(map[], map[], [])

  function Note(s: State, e: Entry): State {
    s.(log := s.log + [e])
  }

  function NoteSends(s: State, id: RequestId, replies: seq<Reply>): State {
    if replies == [] then s else Note(NoteSends(s, id, replies[..|replies| - 1]), Sent(id, replies[|replies| - 1]))
  }

  function DropRequest(s: State, id: RequestId): State {
    if id !in s.requests then s
    else
      var device := s.requests[id].device;
      s.(requests := s.requests - {id},
         pendingByDevice := if device in s.pendingByDevice && s.pendingByDevice[device] == id then s.pendingByDevice - {device} else s.pendingByDevice)
  }

  /** The request if it has not run out; one that has is dropped. */
  function LiveRequest(s: State, id: RequestId, now: int): (State, Option<Request>) {
    if id !in s.requests then (s, None)
    else if s.requests[id].expiresAt <= now then (DropRequest(s, id), None)
    else (s, Some(s.requests[id]))
  }

  function Open(c: Config, s: State, id: RequestId, device: Device, now: int): State {
    Note(s.(requests := s.requests[id := Request(device, now + c.requestTtl, false, None, [])], pendingByDevice := s.pendingByDevice[device := id]),
         Asked(id, device))
  }

  /** Refused when the machine is offline or already has a request waiting. */
  function PairRequest(c: Config, s: State, id: RequestId, device: Device, online: bool, now: int): (State, bool) {
    if !online then (s, false)
    else if device in s.pendingByDevice then
      var (t, live) := LiveRequest(s, s.pendingByDevice[device], now);
      if live.Some? then (t, false) else (Open(c, t, id, device, now), true)
    else (Open(c, s, id, device, now), true)
  }

  function Attach(s: State, id: RequestId, socket: Socket, now: int): (State, bool) {
    var (t, live) := LiveRequest(s, id, now);
    if live.None? || live.value.browser.Some? then (t, false)
    else
      (NoteSends(Note(t.(requests := t.requests[id := live.value.(browser := Some(socket), pending := [])]), Attached(id, socket)), id, live.value.pending),
       true)
  }

  function Commit(s: State, id: RequestId, online: bool, now: int): State {
    var (t, live) := LiveRequest(s, id, now);
    if live.None? then t
    else if !online then DropRequest(t, id)
    else if live.value.forwarded then t
    else Note(t.(requests := t.requests[id := live.value.(forwarded := true)]), Forwarded(id, live.value.device))
  }

  function Reveal(s: State, id: RequestId, online: bool, now: int): State {
    var (t, live) := LiveRequest(s, id, now);
    if live.None? then t
    else if !online then DropRequest(t, id)
    else if !live.value.forwarded then t
    else Note(t, Revealed(id, live.value.device))
  }

  function SocketCloses(s: State, id: RequestId): State {
    DropRequest(s, id)
  }

  function Buffered(c: Config, r: Request, reply: Reply): Request {
    if r.browser.Some? || |r.pending| >= c.maxPending then r else r.(pending := r.pending + [reply])
  }

  /** A reply from the machine registered as `from`; anything but an acknowledgement ends the request. */
  function AgentReplies(c: Config, s: State, from: Device, id: RequestId, reply: Reply, now: int): State {
    var (t, live) := LiveRequest(s, id, now);
    if live.None? || live.value.device != from then t
    else
      var u := Note(t.(requests := t.requests[id := Buffered(c, live.value, reply)]), Replied(id, from, reply));
      var v := if live.value.browser.Some? then Note(u, Sent(id, reply)) else u;
      if reply.Ack? then v else DropRequest(v, id)
  }

  function Sweep(s: State, order: seq<RequestId>, now: int): State {
    if order == [] then s else LiveRequest(Sweep(s, order[..|order| - 1], now), order[|order| - 1], now).0
  }

  datatype Event =
    | Asks(id: RequestId, device: Device, online: bool, now: int)
    | Attaches(id: RequestId, socket: Socket, now: int)
    | Commits(id: RequestId, online: bool, now: int)
    | Reveals(id: RequestId, online: bool, now: int)
    | Closes(id: RequestId)
    | Replies(from: Device, id: RequestId, reply: Reply, now: int)
    | Sweeps(order: seq<RequestId>, now: int)

  /** Request ids are never drawn twice. */
  predicate Enabled(s: State, e: Event) {
    e.Asks? ==> Tally(s.log, e.id, IsAsked) == 0
  }

  function Step(c: Config, s: State, e: Event): State {
    match e
    case Asks(id, device, online, now) => PairRequest(c, s, id, device, online, now).0
    case Attaches(id, socket, now) => Attach(s, id, socket, now).0
    case Commits(id, online, now) => Commit(s, id, online, now)
    case Reveals(id, online, now) => Reveal(s, id, online, now)
    case Closes(id) => SocketCloses(s, id)
    case Replies(from, id, reply, now) => AgentReplies(c, s, from, id, reply, now)
    case Sweeps(order, now) => Sweep(s, order, now)
  }

  // ---------------------------------------------------------------------------
  // What every run keeps
  // ---------------------------------------------------------------------------

  datatype Kind = IsAsked | IsAttached | IsForwarded | IsDecided

  predicate Counts(e: Entry, id: RequestId, k: Kind) {
    && e.id == id
    && match k
       case IsAsked => e.Asked?
       case IsAttached => e.Attached?
       case IsForwarded => e.Forwarded?
       case IsDecided => e.Replied? && !e.reply.Ack?
  }

  function Tally(log: seq<Entry>, id: RequestId, k: Kind): nat {
    if log == [] then 0 else Tally(log[..|log| - 1], id, k) + if Counts(log[|log| - 1], id, k) then 1 else 0
  }

  /** Each thing happens to a request at most once, in the order the flags say. */
  predicate OnceEach(s: State, id: RequestId) {
    && Tally(s.log, id, IsAsked) <= 1 && Tally(s.log, id, IsAttached) <= 1
    && Tally(s.log, id, IsForwarded) <= 1 && Tally(s.log, id, IsDecided) <= 1
    && (Tally(s.log, id, IsAsked) == 0 ==> id !in s.requests && Tally(s.log, id, IsAttached) == 0 && Tally(s.log, id, IsForwarded) == 0 && Tally(s.log, id, IsDecided) == 0)
    && (id in s.requests ==>
          && Tally(s.log, id, IsDecided) == 0
          && (s.requests[id].forwarded <==> Tally(s.log, id, IsForwarded) == 1)
          && (s.requests[id].browser.Some? <==> Tally(s.log, id, IsAttached) == 1))
  }

  /** The two maps are inverse, and a stored request is the one asked of that machine. */
  predicate RequestOk(s: State, id: RequestId)
    requires id in s.requests
  {
    var r := s.requests[id];
    r.device in s.pendingByDevice && s.pendingByDevice[r.device] == id && Asked(id, r.device) in s.log
  }

  predicate DeviceOk(s: State, device: Device)
    requires device in s.pendingByDevice
  {
    s.pendingByDevice[device] in s.requests && s.requests[s.pendingByDevice[device]].device == device
  }

  /** Whatever reached a machine or came from one was about a request asked of that machine. */
  predicate EntryOk(log: seq<Entry>, e: Entry) {
    e.Forwarded? || e.Revealed? || e.Replied? ==> Asked(e.id, e.device) in log
  }

  ghost predicate Inv(s: State) {
    && (forall id :: OnceEach(s, id))
    && (forall id | id in s.requests :: RequestOk(s, id))
    && (forall device | device in s.pendingByDevice :: DeviceOk(s, device))
    && (forall i | 0 <= i < |s.log| :: EntryOk(s.log, s.log[i]))
  }

  lemma TallyGrows(log: seq<Entry>, e: Entry, id: RequestId, k: Kind)
    ensures Tally(log + [e], id, k) == Tally(log, id, k) + if Counts(e, id, k) then 1 else 0
  {
    assert (log + [e])[..|log + [e]| - 1] == log;
  }

  lemma TalliesGrow(log: seq<Entry>, e: Entry, id: RequestId)
    ensures forall k :: Tally(log + [e], id, k) == Tally(log, id, k) + if Counts(e, id, k) then 1 else 0
  {
    forall k ensures Tally(log + [e], id, k) == Tally(log, id, k) + if Counts(e, id, k) then 1 else 0 { TallyGrows(log, e, id, k); }
  }

  lemma EntriesGrow(log: seq<Entry>, e: Entry)
    requires (forall i | 0 <= i < |log| :: EntryOk(log, log[i])) && EntryOk(log, e)
    ensures forall i | 0 <= i < |log + [e]| :: EntryOk(log + [e], (log + [e])[i])
  {
    var more := log + [e];
    forall i | 0 <= i < |more| ensures EntryOk(more, more[i]) {
      if i < |log| { assert more[i] == log[i] && EntryOk(log, log[i]); }
    }
  }

  lemma DropKeepsInv(s: State, id: RequestId)
    requires Inv(s)
    ensures Inv(DropRequest(s, id))
  {
    if id in s.requests {
      var t := DropRequest(s, id);
      assert RequestOk(s, id);
      forall x ensures OnceEach(t, x) { assert OnceEach(s, x); hide Tally; }
      hide OnceEach, Tally;
      forall x | x in t.requests ensures RequestOk(t, x) { assert RequestOk(s, x); }
      forall d | d in t.pendingByDevice ensures DeviceOk(t, d) { assert DeviceOk(s, d); }
    }
  }

  lemma LiveKeepsInv(s: State, id: RequestId, now: int)
    requires Inv(s)
    ensures Inv(LiveRequest(s, id, now).0)
  {
    hide Inv, DropRequest;
    DropKeepsInv(s, id);
  }

  lemma {:induction false} SweepKeepsInv(s: State, order: seq<RequestId>, now: int)
    requires Inv(s)
    ensures Inv(Sweep(s, order, now))
  {
    hide Inv, LiveRequest;
    if order != [] {
      SweepKeepsInv(s, order[..|order| - 1], now);
      LiveKeepsInv(Sweep(s, order[..|order| - 1], now), order[|order| - 1], now);
    }
  }

  /** The parts of the invariant one at a time: the tallies, and the maps with the log's claims. */
  ghost predicate AllOnce(s: State) {
    forall id :: OnceEach(s, id)
  }

  ghost predicate Linked(s: State) {
    && (forall id | id in s.requests :: RequestOk(s, id))
    && (forall device | device in s.pendingByDevice :: DeviceOk(s, device))
    && (forall i | 0 <= i < |s.log| :: EntryOk(s.log, s.log[i]))
  }

  lemma InvParts(s: State)
    ensures Inv(s) <==> AllOnce(s) && Linked(s)
  {
    hide OnceEach, RequestOk, DeviceOk, EntryOk;
  }

  lemma OpenOnce(c: Config, s: State, id: RequestId, device: Device, now: int)
    requires AllOnce(s) && Tally(s.log, id, IsAsked) == 0
    ensures AllOnce(Open(c, s, id, device, now))
  {
    var t := Open(c, s, id, device, now);
    forall x ensures OnceEach(t, x) {
      assert OnceEach(s, x);
      TalliesGrow(s.log, Asked(id, device), x);
      hide Tally;
    }
  }

  lemma OpenLinked(c: Config, s: State, id: RequestId, device: Device, now: int)
    requires Linked(s) && id !in s.requests && device !in s.pendingByDevice
    ensures Linked(Open(c, s, id, device, now))
  {
    var e := Asked(id, device);
    var t := Open(c, s, id, device, now);
    EntriesGrow(s.log, e);
    assert t.log[|s.log|] == e;
    hide EntryOk;
    forall x | x in t.requests ensures RequestOk(t, x) { if x != id { assert RequestOk(s, x); } }
    forall d | d in t.pendingByDevice ensures DeviceOk(t, d) { if d != device { assert DeviceOk(s, d); } }
  }

  lemma OpenKeepsInv(c: Config, s: State, id: RequestId, device: Device, now: int)
    requires Inv(s) && Tally(s.log, id, IsAsked) == 0 && device !in s.pendingByDevice
    ensures Inv(Open(c, s, id, device, now))
  {
    hide Inv, AllOnce, Linked, Open, Tally;
    InvParts(s);
    assert id !in s.requests by { NotStored(s, id); }
    OpenOnce(c, s, id, device, now);
    OpenLinked(c, s, id, device, now);
    InvParts(Open(c, s, id, device, now));
  }

  lemma NotStored(s: State, id: RequestId)
    requires Inv(s) && Tally(s.log, id, IsAsked) == 0
    ensures id !in s.requests
  {
    assert OnceEach(s, id);
  }

  /** The flags change with the entry that says so. */
  predicate FlagsFollow(before: Request, r: Request, e: Entry) {
    && r.forwarded == (before.forwarded || e.Forwarded?) && (e.Forwarded? ==> !before.forwarded)
    && r.browser.Some? == (before.browser.Some? || e.Attached?) && (e.Attached? ==> before.browser.None?)
  }

  lemma UpdateOnce(s: State, id: RequestId, r: Request, e: Entry)
    requires AllOnce(s) && id in s.requests && e.id == id && !e.Asked? && !Counts(e, id, IsDecided) && FlagsFollow(s.requests[id], r, e)
    ensures AllOnce(Note(s.(requests := s.requests[id := r]), e))
  {
    var t := Note(s.(requests := s.requests[id := r]), e);
    forall x ensures OnceEach(t, x) {
      assert OnceEach(s, x);
      TalliesGrow(s.log, e, x);
      hide Tally;
    }
  }

  lemma UpdateLinked(s: State, id: RequestId, r: Request, e: Entry)
    requires Linked(s) && id in s.requests && r.device == s.requests[id].device && e.id == id
    requires e.Forwarded? || e.Revealed? || e.Replied? ==> e.device == r.device
    ensures Linked(Note(s.(requests := s.requests[id := r]), e))
  {
    var t := Note(s.(requests := s.requests[id := r]), e);
    assert RequestOk(s, id);
    EntriesGrow(s.log, e);
    hide EntryOk;
    forall x | x in t.requests ensures RequestOk(t, x) { assert RequestOk(s, x); }
    forall d | d in t.pendingByDevice ensures DeviceOk(t, d) { assert DeviceOk(s, d); }
  }

  /** One entry about a stored request, whose flags change with it; its machine does not. */
  lemma UpdateKeepsInv(s: State, id: RequestId, r: Request, e: Entry)
    requires Inv(s) && id in s.requests && r.device == s.requests[id].device && e.id == id && !e.Asked? && !Counts(e, id, IsDecided)
    requires e.Forwarded? || e.Revealed? || e.Replied? ==> e.device == r.device
    requires FlagsFollow(s.requests[id], r, e)
    ensures Inv(Note(s.(requests := s.requests[id := r]), e))
  {
    hide Inv, AllOnce, Linked, Note, FlagsFollow, Counts;
    InvParts(s);
    UpdateOnce(s, id, r, e);
    UpdateLinked(s, id, r, e);
    InvParts(Note(s.(requests := s.requests[id := r]), e));
  }

  lemma DecideOnce(s: State, id: RequestId, r: Request, reply: Reply)
    requires AllOnce(s) && id in s.requests && r.device == s.requests[id].device && !reply.Ack?
    ensures AllOnce(DropRequest(Note(s.(requests := s.requests[id := r]), Replied(id, r.device, reply)), id))
  {
    var t := DropRequest(Note(s.(requests := s.requests[id := r]), Replied(id, r.device, reply)), id);
    forall x ensures OnceEach(t, x) {
      assert OnceEach(s, x);
      assert OnceEach(s, id);
      TalliesGrow(s.log, Replied(id, r.device, reply), x);
      hide Tally;
    }
  }

  lemma DropLinked(s: State, id: RequestId)
    requires Linked(s)
    ensures Linked(DropRequest(s, id))
  {
    if id in s.requests {
      var t := DropRequest(s, id);
      assert RequestOk(s, id);
      hide EntryOk;
      forall x | x in t.requests ensures RequestOk(t, x) { assert RequestOk(s, x); }
      forall d | d in t.pendingByDevice ensures DeviceOk(t, d) { assert DeviceOk(s, d); }
    }
  }

  /** A decision and the end of the request it decides, at one stroke. */
  lemma DecideKeepsInv(s: State, id: RequestId, r: Request, reply: Reply)
    requires Inv(s) && id in s.requests && r.device == s.requests[id].device && !reply.Ack?
    ensures Inv(DropRequest(Note(s.(requests := s.requests[id := r]), Replied(id, r.device, reply)), id))
  {
    hide Inv, AllOnce, Linked, Note, DropRequest;
    var e := Replied(id, r.device, reply);
    InvParts(s);
    DecideOnce(s, id, r, reply);
    UpdateLinked(s, id, r, e);
    DropLinked(Note(s.(requests := s.requests[id := r]), e), id);
    InvParts(DropRequest(Note(s.(requests := s.requests[id := r]), e), id));
  }

  lemma PairRequestKeepsInv(c: Config, s: State, id: RequestId, device: Device, online: bool, now: int)
    requires Inv(s) && Tally(s.log, id, IsAsked) == 0
    ensures Inv(PairRequest(c, s, id, device, online, now).0)
  {
    if online && device in s.pendingByDevice {
      assert DeviceOk(s, device);
      hide Inv, Open, Tally;
      LiveKeepsInv(s, s.pendingByDevice[device], now);
      var (t, live) := LiveRequest(s, s.pendingByDevice[device], now);
      if live.None? { OpenKeepsInv(c, t, id, device, now); }
    } else if online {
      hide Inv, Open, Tally;
      OpenKeepsInv(c, s, id, device, now);
    }
  }

  lemma StepKeepsInv(c: Config, s: State, e: Event)
    requires Inv(s) && Enabled(s, e)
    ensures Inv(Step(c, s, e))
  {
    hide Inv, Note, NoteSends, DropRequest, Tally, PairRequest, Sweep, Counts;
    match e
    case Asks(id, device, online, now) => PairRequestKeepsInv(c, s, id, device, online, now);
    case Closes(id) => DropKeepsInv(s, id);
    case Sweeps(order, now) => SweepKeepsInv(s, order, now);
    case Attaches(id, socket, now) =>
      LiveKeepsInv(s, id, now);
      var (t, live) := LiveRequest(s, id, now);
      if live.Some? && live.value.browser.None? { UpdateAttached(t, id, socket, live.value.pending); }
    case Commits(id, online, now) =>
      LiveKeepsInv(s, id, now);
      DropKeepsInv(s, id);
      var (t, live) := LiveRequest(s, id, now);
      if live.Some? && !live.value.forwarded { UpdateForwarded(t, id); }
    case Reveals(id, online, now) =>
      LiveKeepsInv(s, id, now);
      DropKeepsInv(s, id);
      var (t, live) := LiveRequest(s, id, now);
      if live.Some? { UpdateRevealed(t, id); }
    case Replies(from, id, reply, now) =>
      LiveKeepsInv(s, id, now);
      var (t, live) := LiveRequest(s, id, now);
      if live.Some? && live.value.device == from { UpdateReplied(c, t, id, reply); }
  }

  lemma UpdateAttached(s: State, id: RequestId, socket: Socket, replies: seq<Reply>)
    requires Inv(s) && id in s.requests && s.requests[id].browser.None?
    ensures Inv(NoteSends(Note(s.(requests := s.requests[id := s.requests[id].(browser := Some(socket), pending := [])]), Attached(id, socket)), id, replies))
  {
    assert !Counts(Attached(id, socket), id, IsDecided);
    hide Inv, Note, Counts, NoteSends;
    UpdateKeepsInv(s, id, s.requests[id].(browser := Some(socket), pending := []), Attached(id, socket));
    SendsKeepInv(Note(s.(requests := s.requests[id := s.requests[id].(browser := Some(socket), pending := [])]), Attached(id, socket)), id, replies);
  }

  lemma SentKeepsInv(s: State, id: RequestId, reply: Reply)
    requires Inv(s)
    ensures Inv(Note(s, Sent(id, reply)))
  {
    var e := Sent(id, reply);
    var t := Note(s, e);
    EntriesGrow(s.log, e);
    hide EntryOk;
    forall x ensures OnceEach(t, x) {
      assert OnceEach(s, x);
      TalliesGrow(s.log, e, x);
      hide Tally;
    }
    hide OnceEach;
    forall x | x in t.requests ensures RequestOk(t, x) { assert RequestOk(s, x); }
    forall d | d in t.pendingByDevice ensures DeviceOk(t, d) { assert DeviceOk(s, d); }
  }

  lemma {:induction false} SendsKeepInv(s: State, id: RequestId, replies: seq<Reply>)
    requires Inv(s)
    ensures Inv(NoteSends(s, id, replies))
  {
    hide Inv, Note;
    if replies != [] {
      SendsKeepInv(s, id, replies[..|replies| - 1]);
      SentKeepsInv(NoteSends(s, id, replies[..|replies| - 1]), id, replies[|replies| - 1]);
    }
  }

  lemma UpdateForwarded(s: State, id: RequestId)
    requires Inv(s) && id in s.requests && !s.requests[id].forwarded
    ensures Inv(Note(s.(requests := s.requests[id := s.requests[id].(forwarded := true)]), Forwarded(id, s.requests[id].device)))
  {
    assert !Counts(Forwarded(id, s.requests[id].device), id, IsDecided);
    hide Inv, Note, Counts;
    UpdateKeepsInv(s, id, s.requests[id].(forwarded := true), Forwarded(id, s.requests[id].device));
  }

  lemma UpdateRevealed(s: State, id: RequestId)
    requires Inv(s) && id in s.requests
    ensures Inv(Note(s, Revealed(id, s.requests[id].device)))
  {
    assert !Counts(Revealed(id, s.requests[id].device), id, IsDecided);
    assert s.(requests := s.requests[id := s.requests[id]]) == s;
    hide Inv, Note, Counts;
    UpdateKeepsInv(s, id, s.requests[id], Revealed(id, s.requests[id].device));
  }

  lemma UpdateReplied(c: Config, s: State, id: RequestId, reply: Reply)
    requires Inv(s) && id in s.requests
    ensures var u := Note(s.(requests := s.requests[id := Buffered(c, s.requests[id], reply)]), Replied(id, s.requests[id].device, reply));
            var v := if s.requests[id].browser.Some? then Note(u, Sent(id, reply)) else u;
            Inv(if reply.Ack? then v else DropRequest(v, id))
  {
    assert Counts(Replied(id, s.requests[id].device, reply), id, IsDecided) <==> !reply.Ack?;
    var u := Note(s.(requests := s.requests[id := Buffered(c, s.requests[id], reply)]), Replied(id, s.requests[id].device, reply));
    DropThenNote(u, Sent(id, reply), id);
    hide Inv, Note, Counts, DropRequest;
    if reply.Ack? {
      UpdateKeepsInv(s, id, Buffered(c, s.requests[id], reply), Replied(id, s.requests[id].device, reply));
      SentKeepsInv(u, id, reply);
    } else {
      DecideKeepsInv(s, id, Buffered(c, s.requests[id], reply), reply);
      SentKeepsInv(DropRequest(u, id), id, reply);
    }
  }

  lemma DropThenNote(s: State, e: Entry, id: RequestId)
    ensures DropRequest(Note(s, e), id) == Note(DropRequest(s, id), e)
  {
  }

  predicate AllEnabled(c: Config, s: State, es: seq<Event>)
    decreases |es|
  {
    es == [] || (Enabled(s, es[0]) && AllEnabled(c, Step(c, s, es[0]), es[1..]))
  }

  function Exec(c: Config, s: State, es: seq<Event>): State
    decreases |es|
  {
    if es == [] then s else Exec(c, Step(c, s, es[0]), es[1..])
  }

  lemma {:induction false} RunsKeepInv(c: Config, s: State, es: seq<Event>)
    requires Inv(s) && AllEnabled(c, s, es)
    ensures Inv(Exec(c, s, es))
    decreases |es|
  {
    hide Inv, Step, Enabled;
    if es != [] {
      StepKeepsInv(c, s, es[0]);
      RunsKeepInv(c, Step(c, s, es[0]), es[1..]);
    }
  }

  /** Main result: over every run, a machine has at most one undecided request; a request is attached by one
    * socket, forwarded to the machine once, and decided once at most. */
  lemma OneUndecidedRequestPerMachine(c: Config, es: seq<Event>, x: RequestId, y: RequestId)
    requires AllEnabled(c, START, es)
    ensures var s := Exec(c, START, es);
            && (x in s.requests && y in s.requests && s.requests[x].device == s.requests[y].device ==> x == y)
            && Tally(s.log, x, IsAttached) <= 1 && Tally(s.log, x, IsForwarded) <= 1 && Tally(s.log, x, IsDecided) <= 1
            && (x in s.requests ==> Tally(s.log, x, IsDecided) == 0)
  {
    assert Inv(START);
    RunsKeepInv(c, START, es);
    var s := Exec(c, START, es);
    hide Exec, Tally;
    assert OnceEach(s, x);
    if x in s.requests && y in s.requests { assert RequestOk(s, x) && RequestOk(s, y); }
  }

  /** Main result: only the machine a request was asked of is ever told of it, and only that machine's replies
    * reach the browser. */
  lemma OnlyTheAddressedMachineAnswers(c: Config, es: seq<Event>, i: nat, j: nat)
    requires AllEnabled(c, START, es) && i < |Exec(c, START, es).log| && j < |Exec(c, START, es).log|
    ensures var log := Exec(c, START, es).log;
            (log[i].Replied? || log[i].Forwarded? || log[i].Revealed?) && log[j].Asked? && log[j].id == log[i].id ==> log[j].device == log[i].device
  {
    assert Inv(START);
    RunsKeepInv(c, START, es);
    var s := Exec(c, START, es);
    hide Exec;
    assert EntryOk(s.log, s.log[i]);
    assert OnceEach(s, s.log[i].id);
    if (s.log[i].Replied? || s.log[i].Forwarded? || s.log[i].Revealed?) && s.log[j].Asked? && s.log[j].id == s.log[i].id {
      var k :| 0 <= k < |s.log| && s.log[k] == Asked(s.log[i].id, s.log[i].device);
      AskedOnce(s.log, s.log[i].id, j, k);
    }
  }

  lemma {:induction false} TallyPositive(log: seq<Entry>, id: RequestId, i: nat)
    requires i < |log| && Counts(log[i], id, IsAsked)
    ensures Tally(log, id, IsAsked) >= 1
  {
    if i < |log| - 1 { TallyPositive(log[..|log| - 1], id, i); }
  }

  lemma {:induction false} AskedOnce(log: seq<Entry>, id: RequestId, i: nat, j: nat)
    requires i < |log| && j < |log| && Counts(log[i], id, IsAsked) && Counts(log[j], id, IsAsked) && Tally(log, id, IsAsked) <= 1
    ensures i == j
  {
    var n := |log| - 1;
    if i < n && j < n {
      AskedOnce(log[..n], id, i, j);
    } else if i < n {
      TallyPositive(log[..n], id, i);
    } else if j < n {
      TallyPositive(log[..n], id, j);
    }
  }

  // ---------------------------------------------------------------------------
  // What becomes of the replies
  // ---------------------------------------------------------------------------

  predicate WasAttached(log: seq<Entry>, id: RequestId) {
    Tally(log, id, IsAttached) > 0
  }

  /** The replies taken before the browser's socket attached, and after it, in order. */
  function Early(log: seq<Entry>, id: RequestId): seq<Reply> {
    if log == [] then []
    else
      var (before, last) := (log[..|log| - 1], log[|log| - 1]);
      Early(before, id) + if last.Replied? && last.id == id && !WasAttached(before, id) then [last.reply] else []
  }

  function Late(log: seq<Entry>, id: RequestId): seq<Reply> {
    if log == [] then []
    else
      var (before, last) := (log[..|log| - 1], log[|log| - 1]);
      Late(before, id) + if last.Replied? && last.id == id && WasAttached(before, id) then [last.reply] else []
  }

  /** What went out on the browser's socket, in order. */
  function SentTo(log: seq<Entry>, id: RequestId): seq<Reply> {
    if log == [] then []
    else SentTo(log[..|log| - 1], id) + if log[|log| - 1].Sent? && log[|log| - 1].id == id then [log[|log| - 1].reply] else []
  }

  function FirstOf(replies: seq<Reply>, n: nat): seq<Reply> {
    if |replies| <= n then replies else replies[..n]
  }

  /** What the browser is owed: the first few early replies, and every later one. */
  function Owed(c: Config, log: seq<Entry>, id: RequestId): seq<Reply> {
    if WasAttached(log, id) then FirstOf(Early(log, id), c.maxPending) + Late(log, id) else []
  }

  predicate BufferOk(c: Config, s: State, id: RequestId) {
    && (id in s.requests ==> s.requests[id].pending == if s.requests[id].browser.Some? then [] else FirstOf(Early(s.log, id), c.maxPending))
    && (Tally(s.log, id, IsAsked) == 0 ==> Early(s.log, id) == [])
  }

  predicate RepliesOk(c: Config, s: State, id: RequestId) {
    SentTo(s.log, id) == Owed(c, s.log, id) && BufferOk(c, s, id)
  }

  ghost predicate Accounts(c: Config, s: State) {
    forall id :: RepliesOk(c, s, id)
  }

  lemma LogGrows(log: seq<Entry>, e: Entry, id: RequestId)
    ensures WasAttached(log + [e], id) <==> WasAttached(log, id) || (e.Attached? && e.id == id)
    ensures Early(log + [e], id) == Early(log, id) + if e.Replied? && e.id == id && !WasAttached(log, id) then [e.reply] else []
    ensures Late(log + [e], id) == Late(log, id) + if e.Replied? && e.id == id && WasAttached(log, id) then [e.reply] else []
    ensures SentTo(log + [e], id) == SentTo(log, id) + if e.Sent? && e.id == id then [e.reply] else []
  {
    assert (log + [e])[..|log|] == log;
    TallyGrows(log, e, id, IsAttached);
  }

  lemma {:induction false} LateNeedsAttached(log: seq<Entry>, id: RequestId)
    ensures !WasAttached(log, id) ==> Late(log, id) == []
  {
    if log != [] { LateNeedsAttached(log[..|log| - 1], id); }
  }

  /** An entry that is neither a reply nor a send nor an attach of `id` changes nothing owed to it. */
  lemma QuietEntry(c: Config, s: State, t: State, e: Entry, id: RequestId)
    requires RepliesOk(c, s, id) && t.log == s.log + [e] && (e.id == id ==> !e.Replied? && !e.Sent? && !e.Attached?)
    requires id in t.requests ==> id in s.requests && t.requests[id].pending == s.requests[id].pending && t.requests[id].browser == s.requests[id].browser
    ensures RepliesOk(c, t, id)
  {
    LogGrows(s.log, e, id);
    TallyGrows(s.log, e, id, IsAsked);
    hide Early, Late, SentTo, Tally, WasAttached;
  }

  lemma DropKeepsAccounts(c: Config, s: State, id: RequestId)
    requires Accounts(c, s)
    ensures Accounts(c, DropRequest(s, id))
  {
    var t := DropRequest(s, id);
    forall x ensures RepliesOk(c, t, x) { assert RepliesOk(c, s, x); }
  }

  lemma LiveKeepsAccounts(c: Config, s: State, id: RequestId, now: int)
    requires Accounts(c, s)
    ensures Accounts(c, LiveRequest(s, id, now).0)
  {
    hide Accounts, DropRequest;
    DropKeepsAccounts(c, s, id);
  }

  lemma {:induction false} SweepKeepsAccounts(c: Config, s: State, order: seq<RequestId>, now: int)
    requires Accounts(c, s)
    ensures Accounts(c, Sweep(s, order, now))
  {
    hide Accounts, LiveRequest;
    if order != [] {
      SweepKeepsAccounts(c, s, order[..|order| - 1], now);
      LiveKeepsAccounts(c, Sweep(s, order[..|order| - 1], now), order[|order| - 1], now);
    }
  }

  lemma OpenKeepsAccounts(c: Config, s: State, id: RequestId, device: Device, now: int)
    requires Accounts(c, s) && Tally(s.log, id, IsAsked) == 0
    ensures Accounts(c, Open(c, s, id, device, now))
  {
    var t := Open(c, s, id, device, now);
    var e := Asked(id, device);
    forall x ensures RepliesOk(c, t, x) {
      assert RepliesOk(c, s, x);
      LogGrows(s.log, e, x);
      TallyGrows(s.log, e, x, IsAsked);
      hide Early, Late, SentTo, Tally, WasAttached;
    }
  }

  lemma NoteKeepsAccounts(c: Config, s: State, t: State, e: Entry)
    requires Accounts(c, s) && t.log == s.log + [e] && !e.Replied? && !e.Sent? && !e.Attached?
    requires forall x | x in t.requests :: x in s.requests && t.requests[x].pending == s.requests[x].pending && t.requests[x].browser == s.requests[x].browser
    ensures Accounts(c, t)
  {
    forall x ensures RepliesOk(c, t, x) {
      assert RepliesOk(c, s, x);
      hide RepliesOk;
      QuietEntry(c, s, t, e, x);
    }
  }

  lemma {:induction false} SendsGrow(s: State, id: RequestId, replies: seq<Reply>, x: RequestId)
    ensures var t := NoteSends(s, id, replies);
            && t.requests == s.requests && t.pendingByDevice == s.pendingByDevice
            && WasAttached(t.log, x) == WasAttached(s.log, x) && Tally(t.log, x, IsAsked) == Tally(s.log, x, IsAsked)
            && Early(t.log, x) == Early(s.log, x) && Late(t.log, x) == Late(s.log, x)
            && SentTo(t.log, x) == SentTo(s.log, x) + if x == id then replies else []
  {
    if replies != [] {
      var n := |replies| - 1;
      SendsGrow(s, id, replies[..n], x);
      LogGrows(NoteSends(s, id, replies[..n]).log, Sent(id, replies[n]), x);
      TallyGrows(NoteSends(s, id, replies[..n]).log, Sent(id, replies[n]), x, IsAsked);
      hide Early, Late, SentTo, Tally, WasAttached;
      assert replies == replies[..n] + [replies[n]];
    }
  }

  function Joined(s: State, id: RequestId, socket: Socket): State
    requires id in s.requests
  {
    Note(s.(requests := s.requests[id := s.requests[id].(browser := Some(socket), pending := [])]), Attached(id, socket))
  }

  lemma AttachAt(c: Config, s: State, id: RequestId, socket: Socket, x: RequestId)
    requires id in s.requests && s.requests[id].browser.None? && RepliesOk(c, s, id) && RepliesOk(c, s, x) && !WasAttached(s.log, id)
    ensures RepliesOk(c, NoteSends(Joined(s, id, socket), id, s.requests[id].pending), x)
  {
    hide Early, Late, SentTo, Tally, WasAttached, NoteSends;
    LateNeedsAttached(s.log, id);
    LogGrows(s.log, Attached(id, socket), x);
    TallyGrows(s.log, Attached(id, socket), x, IsAsked);
    SendsGrow(Joined(s, id, socket), id, s.requests[id].pending, x);
  }

  lemma UnattachedYet(s: State, id: RequestId)
    requires Inv(s) && id in s.requests
    ensures WasAttached(s.log, id) <==> s.requests[id].browser.Some?
  {
    assert OnceEach(s, id);
    hide Inv, Tally;
  }

  lemma AttachKeepsAccounts(c: Config, s: State, id: RequestId, socket: Socket)
    requires Accounts(c, s) && Inv(s) && id in s.requests && s.requests[id].browser.None?
    ensures Accounts(c, NoteSends(Joined(s, id, socket), id, s.requests[id].pending))
  {
    UnattachedYet(s, id);
    hide RepliesOk, Inv, WasAttached, NoteSends, Joined;
    assert RepliesOk(c, s, id);
    forall x ensures RepliesOk(c, NoteSends(Joined(s, id, socket), id, s.requests[id].pending), x) {
      assert RepliesOk(c, s, x);
      AttachAt(c, s, id, socket, x);
    }
  }

  /** A reply taken for a stored request: sent at once, or added to the buffer while there is room. */
  function Taken(c: Config, s: State, id: RequestId, reply: Reply): State
    requires id in s.requests
  {
    var u := Note(s.(requests := s.requests[id := Buffered(c, s.requests[id], reply)]), Replied(id, s.requests[id].device, reply));
    if s.requests[id].browser.Some? then Note(u, Sent(id, reply)) else u
  }

  lemma ReplyAt(c: Config, s: State, id: RequestId, reply: Reply)
    requires id in s.requests && RepliesOk(c, s, id) && (WasAttached(s.log, id) <==> s.requests[id].browser.Some?) && Tally(s.log, id, IsAsked) > 0
    ensures RepliesOk(c, Taken(c, s, id, reply), id)
  {
    hide Early, Late, Tally, WasAttached, Owed, SentTo;
    var e := Replied(id, s.requests[id].device, reply);
    var log := s.log + [e];
    LogGrows(s.log, e, id);
    TallyGrows(s.log, e, id, IsAsked);
    ReplyOwed(c, s.log, e, id);
    if s.requests[id].browser.Some? {
      TallyGrows(log, Sent(id, reply), id, IsAsked);
      LogGrows(log, Sent(id, reply), id);
      SentOwed(c, log, id, reply);
    }
  }

  lemma SentOwed(c: Config, log: seq<Entry>, id: RequestId, reply: Reply)
    ensures Owed(c, log + [Sent(id, reply)], id) == Owed(c, log, id)
  {
    LogGrows(log, Sent(id, reply), id);
    hide Early, Late, WasAttached;
  }

  lemma ReplyElsewhere(c: Config, s: State, id: RequestId, reply: Reply, x: RequestId)
    requires id in s.requests && x != id && RepliesOk(c, s, x)
    ensures RepliesOk(c, Taken(c, s, id, reply), x)
  {
    hide RepliesOk;
    var e := Replied(id, s.requests[id].device, reply);
    var u := Note(s.(requests := s.requests[id := Buffered(c, s.requests[id], reply)]), e);
    QuietEntry(c, s, u, e, x);
    if s.requests[id].browser.Some? { QuietEntry(c, u, Note(u, Sent(id, reply)), Sent(id, reply), x); }
  }

  lemma ReplyKeepsAccounts(c: Config, s: State, id: RequestId, reply: Reply)
    requires Accounts(c, s) && Inv(s) && id in s.requests
    ensures Accounts(c, Taken(c, s, id, reply))
  {
    UnattachedYet(s, id);
    assert Tally(s.log, id, IsAsked) > 0 by { assert OnceEach(s, id); }
    hide RepliesOk, Inv, WasAttached, Taken, Tally;
    assert RepliesOk(c, s, id);
    ReplyAt(c, s, id, reply);
    forall x ensures RepliesOk(c, Taken(c, s, id, reply), x) {
      assert RepliesOk(c, s, x);
      if x != id { ReplyElsewhere(c, s, id, reply, x); }
    }
  }

  lemma ReplyOwed(c: Config, log: seq<Entry>, e: Entry, id: RequestId)
    requires e.Replied? && e.id == id
    ensures Owed(c, log + [e], id) == Owed(c, log, id) + if WasAttached(log, id) then [e.reply] else []
    ensures WasAttached(log + [e], id) == WasAttached(log, id)
    ensures !WasAttached(log, id) ==>
              FirstOf(Early(log + [e], id), c.maxPending)
                == FirstOf(Early(log, id), c.maxPending) + if |Early(log, id)| < c.maxPending then [e.reply] else []
  {
    LogGrows(log, e, id);
    hide Early, Late, WasAttached;
  }

  lemma StepKeepsAccounts(c: Config, s: State, e: Event)
    requires Accounts(c, s) && Inv(s) && Enabled(s, e)
    ensures Accounts(c, Step(c, s, e))
  {
    hide Accounts, Inv, NoteSends, DropRequest, Tally, Open, Sweep, Buffered;
    match e
    case Asks(id, device, online, now) =>
      OpenKeepsAccounts(c, s, id, device, now);
      if online && device in s.pendingByDevice {
        LiveKeepsAccounts(c, s, s.pendingByDevice[device], now);
        LiveKeepsLog(s, s.pendingByDevice[device], now);
        OpenKeepsAccounts(c, LiveRequest(s, s.pendingByDevice[device], now).0, id, device, now);
      }
    case Closes(id) => DropKeepsAccounts(c, s, id);
    case Sweeps(order, now) => SweepKeepsAccounts(c, s, order, now);
    case Attaches(id, socket, now) =>
      LiveKeepsInv(s, id, now);
      LiveKeepsAccounts(c, s, id, now);
      var (t, live) := LiveRequest(s, id, now);
      if live.Some? && live.value.browser.None? { AttachKeepsAccounts(c, t, id, socket); }
    case Commits(id, online, now) =>
      LiveKeepsAccounts(c, s, id, now);
      var (t, live) := LiveRequest(s, id, now);
      DropKeepsAccounts(c, t, id);
      if live.Some? && online && !live.value.forwarded { NoteKeepsAccounts(c, t, Step(c, s, e), Forwarded(id, live.value.device)); }
    case Reveals(id, online, now) =>
      LiveKeepsAccounts(c, s, id, now);
      var (t, live) := LiveRequest(s, id, now);
      DropKeepsAccounts(c, t, id);
      if live.Some? && online && live.value.forwarded { NoteKeepsAccounts(c, t, Step(c, s, e), Revealed(id, live.value.device)); }
    case Replies(from, id, reply, now) =>
      LiveKeepsInv(s, id, now);
      LiveKeepsAccounts(c, s, id, now);
      var (t, live) := LiveRequest(s, id, now);
      if live.Some? && live.value.device == from {
        ReplyKeepsAccounts(c, t, id, reply);
        DropKeepsAccounts(c, Taken(c, t, id, reply), id);
      }
  }

  lemma LiveKeepsLog(s: State, id: RequestId, now: int)
    ensures LiveRequest(s, id, now).0.log == s.log
  {
  }

  lemma {:induction false} RunsKeepAccounts(c: Config, s: State, es: seq<Event>)
    requires Accounts(c, s) && Inv(s) && AllEnabled(c, s, es)
    ensures Accounts(c, Exec(c, s, es))
    decreases |es|
  {
    hide Inv, Accounts, Step, Enabled;
    if es != [] {
      StepKeepsInv(c, s, es[0]);
      StepKeepsAccounts(c, s, es[0]);
      RunsKeepAccounts(c, Step(c, s, es[0]), es[1..]);
    }
  }

  /** Main result: over every run, what went out on a request's socket is its replies in order, none twice:
    * every one taken after the socket attached, and of those taken before it the first few, which waited in
    * the buffer. So none is lost if and only if none came early, or the socket attached and they all fitted. */
  lemma RepliesConserved(c: Config, es: seq<Event>, id: RequestId)
    requires AllEnabled(c, START, es)
    ensures var s := Exec(c, START, es);
            var early, late := Early(s.log, id), Late(s.log, id);
            && SentTo(s.log, id) == (if WasAttached(s.log, id) then FirstOf(early, c.maxPending) + late else [])
            && (id in s.requests && s.requests[id].browser.None? ==> s.requests[id].pending == FirstOf(early, c.maxPending))
            && (SentTo(s.log, id) == early + late <==> early == [] || (WasAttached(s.log, id) && |early| <= c.maxPending))
  {
    assert Inv(START);
    forall x ensures RepliesOk(c, START, x) { assert START.log == []; }
    RunsKeepAccounts(c, START, es);
    var s := Exec(c, START, es);
    hide Exec, Early, Late, SentTo, Tally, WasAttached;
    assert RepliesOk(c, s, id);
    LateNeedsAttached(s.log, id);
  }

  /** The broker's two maps, changed in place. */
  class RequestDesk {
    const config: Config
    var requests: map<RequestId, Request>
    var pendingByDevice: map<Device, RequestId>
    var log: seq<Entry>

    ghost function View(): State
      reads this
    {
      State(requests, pendingByDevice, log)
    }

    constructor (config: Config)
      ensures this.config == config && View() == START
    {
      this.config := config;
      requests, pendingByDevice, log := map[], map[], [];
    }

    method Drop(id: RequestId)
      modifies this
      ensures View() == DropRequest(old(View()), id)
    {
      if id !in requests { return; }
      var device := requests[id].device;
      requests := requests - {id};
      if device in pendingByDevice && pendingByDevice[device] == id { pendingByDevice := pendingByDevice - {device}; }
    }

    method Live(id: RequestId, now: int) returns (request: Option<Request>)
      modifies this
      ensures (View(), request) == LiveRequest(old(View()), id, now)
      ensures request.Some? ==> id in requests && requests[id] == request.value
    {
      hide DropRequest;
      if id !in requests { return None; }
      if requests[id].expiresAt <= now {
        Drop(id);
        return None;
      }
      request := Some(requests[id]);
    }

    method Ask(id: RequestId, device: Device, online: bool, now: int) returns (accepted: bool)
      modifies this
      ensures (View(), accepted) == PairRequest(config, old(View()), id, device, online, now)
    {
      hide LiveRequest;
      if !online { return false; }
      if device in pendingByDevice {
        var live := Live(pendingByDevice[device], now);
        if live.Some? { return false; }
      }
      requests := requests[id := Request(device, now + config.requestTtl, false, None, [])];
      pendingByDevice := pendingByDevice[device := id];
      log := log + [Asked(id, device)];
      accepted := true;
    }

    method AttachSocket(id: RequestId, socket: Socket, now: int) returns (attached: bool)
      modifies this
      ensures (View(), attached) == Attach(old(View()), id, socket, now)
    {
      hide LiveRequest;
      var live := Live(id, now);
      if live.None? || live.value.browser.Some? { return false; }
      requests := requests[id := live.value.(browser := Some(socket), pending := [])];
      log := log + [Attached(id, socket)];
      ghost var before := View();
      for i := 0 to |live.value.pending|
        invariant View() == NoteSends(before, id, live.value.pending[..i])
      {
        assert live.value.pending[..i + 1][..i] == live.value.pending[..i];
        log := log + [Sent(id, live.value.pending[i])];
      }
      assert live.value.pending[..|live.value.pending|] == live.value.pending;
      attached := true;
    }

    method OnCommit(id: RequestId, online: bool, now: int)
      modifies this
      ensures View() == Commit(old(View()), id, online, now)
    {
      hide LiveRequest, DropRequest;
      var live := Live(id, now);
      if live.None? { return; }
      if !online {
        Drop(id);
        return;
      }
      if live.value.forwarded { return; }
      requests := requests[id := live.value.(forwarded := true)];
      log := log + [Forwarded(id, live.value.device)];
    }

    method OnReveal(id: RequestId, online: bool, now: int)
      modifies this
      ensures View() == Reveal(old(View()), id, online, now)
    {
      hide LiveRequest, DropRequest;
      var live := Live(id, now);
      if live.None? { return; }
      if !online {
        Drop(id);
        return;
      }
      if !live.value.forwarded { return; }
      log := log + [Revealed(id, live.value.device)];
    }

    method OnReply(from: Device, id: RequestId, reply: Reply, now: int)
      modifies this
      ensures View() == AgentReplies(config, old(View()), from, id, reply, now)
    {
      hide LiveRequest, DropRequest;
      var live := Live(id, now);
      if live.None? || live.value.device != from { return; }
      log := log + [Replied(id, from, reply)];
      ghost var stored := requests;
      if live.value.browser.Some? {
        log := log + [Sent(id, reply)];
      } else if |live.value.pending| < config.maxPending {
        requests := requests[id := live.value.(pending := live.value.pending + [reply])];
      }
      assert requests == stored[id := Buffered(config, live.value, reply)];
      if !reply.Ack? { Drop(id); }
    }
  }
}
