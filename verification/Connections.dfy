/** The relay's sockets: admission, the per-connection queue, removal and the address counts
  (apps/relay/src/wire-connections.ts, apps/relay/src/connection-manager.ts).

  `conns` holds every connection ever made, as the callbacks that captured it do; `table` is the set the
  manager still lists. A removal has awaits in it and can be under way more than once.
 */
module Connections {
  import opened Options

  type Id = nat
  type Ip = string
  type Msg = string

  datatype Config = Config(maxConnections: nat, maxPerIp: nat)

  const RELAY := Config(100, 10)

  /** Where the close event's handler is: not fired, waiting for the queue, or past it. */
  datatype Closing = NotClosed | Draining | Drained

  /** `running` is the handler in flight; `enqueued` and `started` only remember, in order. */
  datatype Conn = Conn(ip: Ip, open: bool, authenticated: bool, admitting: bool, closing: Closing, queue: seq<Msg>, running: Option<Msg>,
                       removals: nat, enqueued: seq<Msg>, started: seq<Msg>)

  datatype State = State(conns: map<Id, Conn>, table: set<Id>, ipCounts: map<Ip, int>, next: nat)

  const START := State(map[], {}, map[], 0)

  function IpCount(s: State, ip: Ip): int {
    if ip in s.ipCounts then s.ipCounts[ip] else 0
  }

  // ---------------------------------------------------------------------------
  // Handlers
  // ---------------------------------------------------------------------------

  /** Both caps are checked, and the connection made, in one go. */
  function Accept(c: Config, s: State, ip: Ip): (State, bool) {
    if |s.table| >= c.maxConnections || IpCount(s, ip) >= c.maxPerIp then (s, false)
    else
      (s.(conns := s.conns[s.next := Conn(ip, true, false, false, NotClosed, [], None, 0, [], [])], table := s.table + {s.next},
          ipCounts := s.ipCounts[ip := IpCount(s, ip) + 1], next := s.next + 1), true)
  }

  /** A handler put in the queue runs at once when nothing is running. */
  function Enqueue(k: Conn, msg: Msg): Conn {
    if k.closing != NotClosed then k
    else if k.running.Some? then k.(queue := k.queue + [msg], enqueued := k.enqueued + [msg])
    else Advance(k.(queue := k.queue + [msg], enqueued := k.enqueued + [msg]))
  }

  /** The head of the queue's loop. */
  function Advance(k: Conn): Conn {
    if k.queue == [] then k.(running := None)
    else k.(running := Some(k.queue[0]), queue := k.queue[1..], started := k.started + [k.queue[0]])
  }

  /** One frame: `usable` if it is within the rate and well formed, `good` if it carries a good credential. */
  function OnFrame(k: Conn, msg: Msg, usable: bool, good: bool): Conn {
    if k.admitting || !usable then k
    else if k.authenticated then Enqueue(k, msg)
    else if !good then k.(open := false)
    else k.(admitting := true)
  }

  function OnAdmitted(k: Conn, admitted: bool): Conn {
    var t := k.(admitting := false);
    if !t.open then t else if !admitted then t.(open := false) else t.(authenticated := true)
  }

  function OnClose(k: Conn): Conn {
    k.(open := false, closing := Draining)
  }

  function OnDrained(k: Conn): Conn {
    k.(closing := Drained, removals := k.removals + 1)
  }

  /** Hanging up from the machine closes the socket and starts a removal of its own. */
  function OnDisconnect(k: Conn): Conn {
    k.(open := false, removals := k.removals + 1)
  }

  /** The time to authenticate ran out, a pong was missed, or the credential was revoked. */
  function OnServerClose(k: Conn): Conn {
    k.(open := false)
  }

  /** The end of one removal: it counts down without asking whether another already has. */
  function FinishRemoval(s: State, id: Id): State
    requires id in s.conns
  {
    var k := s.conns[id];
    var left := (if k.ip in s.ipCounts then s.ipCounts[k.ip] else 1) - 1;
    s.(conns := s.conns[id := k.(removals := if k.removals > 0 then k.removals - 1 else 0)],
       ipCounts := if left <= 0 then s.ipCounts - {k.ip} else s.ipCounts[k.ip := left],
       table := s.table - {id})
  }

  datatype Event =
    | Connects(ip: Ip)
    | Frame(id: Id, msg: Msg, usable: bool, good: bool)
    | GateSettles(id: Id, admitted: bool)
    | HandlerSettles(id: Id)
    | SocketCloses(id: Id)
    | DrainSettles(id: Id)
    | Disconnects(id: Id)
    | ServerCloses(id: Id)
    | RemovalSettles(id: Id)

  predicate Enabled(s: State, e: Event) {
    match e
    case Connects(_) => true
    case Frame(id, _, _, _) => id in s.conns
    case GateSettles(id, _) => id in s.conns && s.conns[id].admitting
    case HandlerSettles(id) => id in s.conns && s.conns[id].running.Some?
    case SocketCloses(id) => id in s.conns && s.conns[id].closing.NotClosed?
    case DrainSettles(id) => id in s.conns && s.conns[id].closing.Draining? && s.conns[id].running.None? && s.conns[id].queue == []
    case Disconnects(id) => id in s.table && id in s.conns
    case ServerCloses(id) => id in s.conns
    case RemovalSettles(id) => id in s.conns && s.conns[id].removals > 0
  }

  function Put(s: State, id: Id, k: Conn): State {
    s.(conns := s.conns[id := k])
  }

  function Step(c: Config, s: State, e: Event): State
    requires Enabled(s, e)
  {
    match e
    case Connects(ip) => Accept(c, s, ip).0
    case Frame(id, msg, usable, good) => Put(s, id, OnFrame(s.conns[id], msg, usable, good))
    case GateSettles(id, admitted) => Put(s, id, OnAdmitted(s.conns[id], admitted))
    case HandlerSettles(id) => Put(s, id, Advance(s.conns[id]))
    case SocketCloses(id) => Put(s, id, OnClose(s.conns[id]))
    case DrainSettles(id) => Put(s, id, OnDrained(s.conns[id]))
    case Disconnects(id) => Put(s, id, OnDisconnect(s.conns[id]))
    case ServerCloses(id) => Put(s, id, OnServerClose(s.conns[id]))
    case RemovalSettles(id) => FinishRemoval(s, id)
  }

  predicate AllEnabled(c: Config, s: State, es: seq<Event>)
    decreases |es|
  {
    es == [] || (Enabled(s, es[0]) && AllEnabled(c, Step(c, s, es[0]), es[1..]))
  }

  function Exec(c: Config, s: State, es: seq<Event>): State
    requires AllEnabled(c, s, es)
    decreases |es|
  {
    if es == [] then s else Exec(c, Step(c, s, es[0]), es[1..])
  }

  // ---------------------------------------------------------------------------
  // The address counts
  // ---------------------------------------------------------------------------

  /** The listed connections from an address. */
  function From(s: State, ip: Ip): set<Id> {
    set id | id in s.table && id in s.conns && s.conns[id].ip == ip
  }

  predicate ExactAt(s: State, ip: Ip) {
    IpCount(s, ip) == |From(s, ip)| && (ip in s.ipCounts ==> s.ipCounts[ip] > 0)
  }

  ghost predicate Exact(s: State) {
    forall ip :: ExactAt(s, ip)
  }

  predicate TableOk(c: Config, s: State) {
    && (forall id | id in s.table :: id in s.conns)
    && (forall id | id in s.conns :: id < s.next)
    && |s.table| <= c.maxConnections
  }

  /** The removal is the connection's first, or there is no other connection from its address to miscount. */
  predicate CountsRight(s: State, id: Id)
    requires id in s.conns
  {
    id in s.table || From(s, s.conns[id].ip) == {}
  }

  lemma SetShrinks(a: set<Id>, b: set<Id>, x: Id)
    requires x in a && b == a - {x}
    ensures |b| == |a| - 1
  {
  }

  /** Main result: counts that were exact stay exact through a finished removal if and only if it is the
    * connection's first or no other connection from its address is listed. */
  lemma RemovalCountsRightIff(c: Config, s: State, id: Id)
    requires TableOk(c, s) && Exact(s) && id in s.conns
    ensures Exact(FinishRemoval(s, id)) <==> CountsRight(s, id)
  {
    var t := FinishRemoval(s, id);
    var ip := s.conns[id].ip;
    assert ExactAt(s, ip);
    forall other | other != ip ensures ExactAt(t, other) {
      assert ExactAt(s, other);
      assert From(t, other) == From(s, other);
    }
    if id in s.table {
      assert id in From(s, ip) && From(t, ip) == From(s, ip) - {id};
      SetShrinks(From(s, ip), From(t, ip), id);
      assert ExactAt(t, ip);
    } else {
      assert From(t, ip) == From(s, ip);
      assert ExactAt(t, ip) <==> From(s, ip) == {} by {
        if From(s, ip) != {} {
          assert |From(s, ip)| > 0;
        }
      }
    }
  }

  /** A step that finishes a removal twice over, with somebody left to miscount. */
  predicate Miscounts(s: State, e: Event)
    requires Enabled(s, e)
  {
    e.RemovalSettles? && !CountsRight(s, e.id)
  }

  /** The listing from each address after one connection was accepted. */
  lemma AcceptedFrom(c: Config, s: State, from: Ip, ip: Ip)
    requires Accept(c, s, from).1 && s.next !in s.table
    ensures |From(Accept(c, s, from).0, ip)| == |From(s, ip)| + if ip == from then 1 else 0
  {
    var t := Accept(c, s, from).0;
    if from == ip {
      assert From(t, ip) == From(s, ip) + {s.next};
      SetShrinks(From(t, ip), From(s, ip), s.next);
    } else {
      assert From(t, ip) == From(s, ip);
    }
  }

  lemma AcceptCounts(c: Config, s: State, ip: Ip)
    requires TableOk(c, s) && Exact(s)
    ensures TableOk(c, Accept(c, s, ip).0) && Exact(Accept(c, s, ip).0)
  {
    var t := Accept(c, s, ip).0;
    if Accept(c, s, ip).1 {
      assert s.next !in s.table;
      forall other ensures ExactAt(t, other) {
        assert ExactAt(s, other);
        AcceptedFrom(c, s, ip, other);
        hide From;
      }
    }
  }

  lemma SameListing(c: Config, s: State, t: State)
    requires TableOk(c, s) && t.table == s.table && t.ipCounts == s.ipCounts && t.next == s.next && t.conns.Keys == s.conns.Keys
    requires forall id | id in s.conns :: t.conns[id].ip == s.conns[id].ip
    ensures TableOk(c, t) && (Exact(t) <==> Exact(s))
  {
    forall ip ensures ExactAt(t, ip) <==> ExactAt(s, ip) { assert From(t, ip) == From(s, ip); }
  }

  lemma StepCounts(c: Config, s: State, e: Event)
    requires TableOk(c, s) && Enabled(s, e)
    ensures TableOk(c, Step(c, s, e))
    ensures Exact(s) ==> (Exact(Step(c, s, e)) <==> !Miscounts(s, e))
  {
    match e
    case Connects(ip) => ConnectCounts(c, s, ip);
    case RemovalSettles(id) =>
      if Exact(s) { RemovalCountsRightIff(c, s, id); }
      RemovalKeepsTable(c, s, id);
      hide Exact, FinishRemoval;
    case _ =>
      SameListing(c, s, Step(c, s, e));
      hide Exact;
  }

  lemma ConnectCounts(c: Config, s: State, ip: Ip)
    requires TableOk(c, s)
    ensures TableOk(c, Accept(c, s, ip).0) && (Exact(s) ==> Exact(Accept(c, s, ip).0))
  {
    if Exact(s) { AcceptCounts(c, s, ip); }
    assert s.next !in s.table;
    hide Exact;
  }

  lemma RemovalKeepsTable(c: Config, s: State, id: Id)
    requires TableOk(c, s) && id in s.conns
    ensures TableOk(c, FinishRemoval(s, id))
  {
    if id in s.table { SetShrinks(s.table, s.table - {id}, id); } else { assert s.table - {id} == s.table; }
  }

  predicate NeverMiscounts(c: Config, s: State, es: seq<Event>)
    requires AllEnabled(c, s, es)
    decreases |es|
  {
    es == [] || (!Miscounts(s, es[0]) && NeverMiscounts(c, Step(c, s, es[0]), es[1..]))
  }

  /** Addresses stay within their cap as long as the counts are exact. */
  predicate WithinCaps(c: Config, s: State, ip: Ip) {
    |From(s, ip)| <= c.maxPerIp
  }

  lemma {:induction false} RunsKeepCaps(c: Config, s: State, es: seq<Event>, ip: Ip)
    requires TableOk(c, s) && Exact(s) && WithinCaps(c, s, ip) && AllEnabled(c, s, es) && NeverMiscounts(c, s, es)
    ensures TableOk(c, Exec(c, s, es)) && Exact(Exec(c, s, es)) && WithinCaps(c, Exec(c, s, es), ip)
    decreases |es|
  {
    hide TableOk, Exact, Step, Enabled, Miscounts, WithinCaps;
    if es != [] {
      StepCounts(c, s, es[0]);
      StepWithinCaps(c, s, es[0], ip);
      RunsKeepCaps(c, Step(c, s, es[0]), es[1..], ip);
    }
  }

  lemma AcceptWithinCaps(c: Config, s: State, from: Ip, ip: Ip)
    requires TableOk(c, s) && ExactAt(s, ip) && WithinCaps(c, s, ip)
    ensures WithinCaps(c, Accept(c, s, from).0, ip)
  {
    hide From;
    if Accept(c, s, from).1 {
      assert s.next !in s.table;
      AcceptedFrom(c, s, from, ip);
    }
  }

  lemma RemovalWithinCaps(c: Config, s: State, id: Id, ip: Ip)
    requires id in s.conns && WithinCaps(c, s, ip)
    ensures WithinCaps(c, FinishRemoval(s, id), ip)
  {
    var t := FinishRemoval(s, id);
    assert From(t, ip) == From(s, ip) - {id};
    if id in From(s, ip) { SetShrinks(From(s, ip), From(t, ip), id); } else { assert From(t, ip) == From(s, ip); }
  }

  lemma StepWithinCaps(c: Config, s: State, e: Event, ip: Ip)
    requires TableOk(c, s) && Exact(s) && WithinCaps(c, s, ip) && Enabled(s, e)
    ensures WithinCaps(c, Step(c, s, e), ip)
  {
    assert ExactAt(s, ip);
    hide Exact, ExactAt, TableOk, Accept, FinishRemoval;
    match e
    case Connects(from) => AcceptWithinCaps(c, s, from, ip);
    case RemovalSettles(id) => RemovalWithinCaps(c, s, id, ip);
    case _ => SameFrom(s, Step(c, s, e), ip);
  }

  lemma SameFrom(s: State, t: State, ip: Ip)
    requires t.table == s.table && t.conns.Keys == s.conns.Keys && forall id | id in s.conns :: t.conns[id].ip == s.conns[id].ip
    ensures From(t, ip) == From(s, ip)
  {
  }

  /** Closing is final, whoever closes: the relay, its operator or the browser; the operator's is a removal at once, the
    * browser's once its queue has drained, and the socket is never opened again. */
  lemma ClosingIsFinal(c: Config, s: State, e: Event, id: Id)
    requires Enabled(s, e) && id in s.conns && id < s.next
    ensures var t := Step(c, s, e);
            && id in t.conns && (!s.conns[id].open ==> !t.conns[id].open)
            && (e == ServerCloses(id) ==> !t.conns[id].open && t.conns[id].removals == s.conns[id].removals && t.table == s.table)
            && (e == Disconnects(id) ==> !t.conns[id].open && t.conns[id].removals == s.conns[id].removals + 1)
            && (e == SocketCloses(id) ==> !t.conns[id].open && t.conns[id].closing.Draining? && t.conns[id].removals == s.conns[id].removals)
            && (e == DrainSettles(id) ==> t.conns[id].closing.Drained? && t.conns[id].removals == s.conns[id].removals + 1)
            && (e == RemovalSettles(id) ==> id !in t.table)
  {
  }

  /** A connection is taken exactly when both counts are below their caps, and then listed and counted. */
  lemma AcceptDecides(c: Config, s: State, ip: Ip)
    ensures var (t, accepted) := Accept(c, s, ip);
            && (accepted <==> |s.table| < c.maxConnections && IpCount(s, ip) < c.maxPerIp)
            && (!accepted ==> t == s)
            && (accepted ==>
                  && t.table == s.table + {s.next} && t.next == s.next + 1 && IpCount(t, ip) == IpCount(s, ip) + 1
                  && s.next in t.conns && t.conns[s.next].ip == ip && t.conns[s.next].open && !t.conns[s.next].authenticated)
  {
  }

  /** Main result: in every run that never miscounts, the per-address counts are exact and no address, nor the
    * whole relay, ever exceeds its cap. */
  lemma CapsHold(c: Config, es: seq<Event>, ip: Ip)
    requires AllEnabled(c, START, es) && NeverMiscounts(c, START, es)
    ensures var s := Exec(c, START, es);
            Exact(s) && |From(s, ip)| <= c.maxPerIp && |s.table| <= c.maxConnections
  {
    forall x ensures ExactAt(START, x) { assert From(START, x) == {}; }
    assert From(START, ip) == {};
    RunsKeepCaps(c, START, es, ip);
    hide Exec;
  }

  /** Hanging up from the machine leads to two removals: its own, and the close event's. With a
    * second connection from the same address the count is then one short. */
  lemma HangingUpRemovesTwice(c: Config, s: State, id: Id, other: Id)
    requires TableOk(c, s) && Exact(s) && id in s.table && other in s.table && id != other && s.conns[id].ip == s.conns[other].ip
    requires s.conns[id].closing.NotClosed? && s.conns[id].running.None? && s.conns[id].queue == []
    ensures var es := [Disconnects(id), RemovalSettles(id), SocketCloses(id), DrainSettles(id), RemovalSettles(id)];
            AllEnabled(c, s, es) && !Exact(Exec(c, s, es))
  {
    var s1, s2, s3, s4 := HangingUpStates(c, s, id, other);
    hide Exact, TableOk, Step, Enabled, CountsRight;
    StepCounts(c, s, Disconnects(id));
    StepCounts(c, s1, RemovalSettles(id));
    StepCounts(c, s2, SocketCloses(id));
    StepCounts(c, s3, DrainSettles(id));
    StepCounts(c, s4, RemovalSettles(id));
    FiveEvents(c, s, id, s1, s2, s3, s4);
  }

  /** And two connections from one address is all it takes to get there. */
  lemma TwoConnectionsMiscount(c: Config, ip: Ip)
    requires c.maxConnections >= 2 && c.maxPerIp >= 2
    ensures var es := [Connects(ip), Connects(ip)];
            && AllEnabled(c, START, es) && 0 in Exec(c, START, es).table
            && var more := [Disconnects(0), RemovalSettles(0), SocketCloses(0), DrainSettles(0), RemovalSettles(0)];
               AllEnabled(c, Exec(c, START, es), more) && !Exact(Exec(c, Exec(c, START, es), more))
  {
    var fresh1 := Conn(ip, true, false, false, NotClosed, [], None, 0, [], []);
    var s1 := State(map[0 := fresh1], {0}, map[ip := 1], 1);
    var s2 := State(map[0 := fresh1, 1 := fresh1], {0, 1}, map[ip := 2], 2);
    assert Step(c, START, Connects(ip)) == s1 && Step(c, s1, Connects(ip)) == s2;
    Prepend(c, s1, Connects(ip), []);
    Prepend(c, START, Connects(ip), [Connects(ip)]);
    forall x ensures ExactAt(START, x) { assert From(START, x) == {}; }
    hide Step, From, ExactAt;
    StepCounts(c, START, Connects(ip));
    StepCounts(c, s1, Connects(ip));
    HangingUpRemovesTwice(c, s2, 0, 1);
  }

  lemma HangingUpStates(c: Config, s: State, id: Id, other: Id) returns (s1: State, s2: State, s3: State, s4: State)
    requires TableOk(c, s) && id in s.table && other in s.table && id != other && s.conns[id].ip == s.conns[other].ip
    requires s.conns[id].closing.NotClosed? && s.conns[id].running.None? && s.conns[id].queue == []
    ensures Enabled(s, Disconnects(id)) && s1 == Step(c, s, Disconnects(id))
    ensures Enabled(s1, RemovalSettles(id)) && s2 == Step(c, s1, RemovalSettles(id)) && CountsRight(s1, id)
    ensures Enabled(s2, SocketCloses(id)) && s3 == Step(c, s2, SocketCloses(id))
    ensures Enabled(s3, DrainSettles(id)) && s4 == Step(c, s3, DrainSettles(id))
    ensures Enabled(s4, RemovalSettles(id)) && !CountsRight(s4, id)
  {
    var k := s.conns[id];
    s1 := Put(s, id, OnDisconnect(k));
    s2 := FinishRemoval(s1, id);
    s3 := Put(s2, id, OnClose(s2.conns[id]));
    s4 := Put(s3, id, OnDrained(s3.conns[id]));
    assert s4.table == s.table - {id} && s4.conns[other] == s.conns[other] && s4.conns[id].ip == k.ip;
    assert other in From(s4, k.ip);
    hide From;
  }

  lemma FiveEvents(c: Config, s: State, id: Id, s1: State, s2: State, s3: State, s4: State)
    requires Enabled(s, Disconnects(id)) && s1 == Step(c, s, Disconnects(id))
    requires Enabled(s1, RemovalSettles(id)) && s2 == Step(c, s1, RemovalSettles(id))
    requires Enabled(s2, SocketCloses(id)) && s3 == Step(c, s2, SocketCloses(id))
    requires Enabled(s3, DrainSettles(id)) && s4 == Step(c, s3, DrainSettles(id))
    requires Enabled(s4, RemovalSettles(id))
    ensures var es := [Disconnects(id), RemovalSettles(id), SocketCloses(id), DrainSettles(id), RemovalSettles(id)];
            AllEnabled(c, s, es) && Exec(c, s, es) == Step(c, s4, RemovalSettles(id))
  {
    hide Step, Enabled;
    Prepend(c, s4, RemovalSettles(id), []);
    Prepend(c, s3, DrainSettles(id), [RemovalSettles(id)]);
    Prepend(c, s2, SocketCloses(id), [DrainSettles(id), RemovalSettles(id)]);
    Prepend(c, s1, RemovalSettles(id), [SocketCloses(id), DrainSettles(id), RemovalSettles(id)]);
    Prepend(c, s, Disconnects(id), [RemovalSettles(id), SocketCloses(id), DrainSettles(id), RemovalSettles(id)]);
  }

  lemma Prepend(c: Config, s: State, e: Event, rest: seq<Event>)
    requires Enabled(s, e) && AllEnabled(c, Step(c, s, e), rest)
    ensures AllEnabled(c, s, [e] + rest) && Exec(c, s, [e] + rest) == Exec(c, Step(c, s, e), rest)
  {
    hide Step, Enabled;
    assert ([e] + rest)[1..] == rest;
  }

  // ---------------------------------------------------------------------------
  // Admission and the queue
  // ---------------------------------------------------------------------------

  /** Handlers run one at a time in the order they came, and only for an admitted connection; a drained
    * connection has run them all. */
  predicate ConnOk(k: Conn) {
    && k.enqueued == k.started + k.queue
    && (k.running.Some? ==> k.started != [] && k.started[|k.started| - 1] == k.running.value)
    && (k.running.None? ==> k.queue == [])
    && (!k.authenticated ==> k.enqueued == [])
    && (k.closing.Drained? ==> k.running.None? && k.enqueued == k.started)
  }

  predicate AllOk(s: State) {
    (forall id | id in s.conns :: ConnOk(s.conns[id])) && (forall id | id in s.conns :: id < s.next)
  }

  lemma StepKeepsOk(c: Config, s: State, e: Event)
    requires AllOk(s) && Enabled(s, e)
    ensures AllOk(Step(c, s, e))
  {
    match e
    case Connects(ip) =>
    case Frame(id, msg, usable, good) => FrameKeepsOk(s.conns[id], msg, usable, good);
    case HandlerSettles(id) => AdvanceKeepsOk(s.conns[id]);
    case _ =>
  }

  lemma AdvanceKeepsOk(k: Conn)
    requires k.enqueued == k.started + k.queue && (!k.authenticated ==> k.enqueued == []) && !k.closing.Drained?
    ensures ConnOk(Advance(k))
  {
    if k.queue != [] { assert k.queue == [k.queue[0]] + k.queue[1..]; }
  }

  lemma FrameKeepsOk(k: Conn, msg: Msg, usable: bool, good: bool)
    requires ConnOk(k)
    ensures ConnOk(OnFrame(k, msg, usable, good))
  {
    if k.authenticated && k.closing.NotClosed? {
      AdvanceKeepsOk(k.(queue := k.queue + [msg], enqueued := k.enqueued + [msg]));
      hide Advance;
    }
  }

  predicate SaysYes(e: Event, id: Id) {
    e == GateSettles(id, true)
  }

  lemma OnlyTheGateAdmits(c: Config, s: State, e: Event, id: Id)
    requires AllOk(s) && Enabled(s, e) && id in Step(c, s, e).conns && Step(c, s, e).conns[id].authenticated
    ensures (id in s.conns && s.conns[id].authenticated) || (SaysYes(e, id) && id in s.conns && s.conns[id].open && s.conns[id].admitting)
  {
    hide Advance, ConnOk;
    match e
    case Frame(x, msg, usable, good) => FrameAdmitsNobody(s.conns[x], msg, usable, good);
    case HandlerSettles(x) => AdvanceAdmitsNobody(s.conns[x]);
    case _ =>
    hide OnFrame;
  }

  lemma AdvanceAdmitsNobody(k: Conn)
    ensures Advance(k).authenticated == k.authenticated && Advance(k).admitting == k.admitting
  {
  }

  lemma FrameAdmitsNobody(k: Conn, msg: Msg, usable: bool, good: bool)
    ensures OnFrame(k, msg, usable, good).authenticated == k.authenticated
  {
  }

  lemma {:induction false} AdmittedOnlyByTheGate(c: Config, s: State, es: seq<Event>, id: Id)
    requires AllOk(s) && AllEnabled(c, s, es) && (id in s.conns ==> !s.conns[id].authenticated) && forall i | 0 <= i < |es| :: !SaysYes(es[i], id)
    ensures AllOk(Exec(c, s, es)) && (id in Exec(c, s, es).conns ==> !Exec(c, s, es).conns[id].authenticated)
    decreases |es|
  {
    if es != [] {
      StepKeepsOk(c, s, es[0]);
      assert !SaysYes(es[0], id);
      if id in Step(c, s, es[0]).conns && Step(c, s, es[0]).conns[id].authenticated { OnlyTheGateAdmits(c, s, es[0], id); }
      forall i | 0 <= i < |es[1..]| ensures !SaysYes(es[1..][i], id) { assert es[1..][i] == es[i + 1]; }
      hide AllOk, Step, Enabled, SaysYes;
      AdmittedOnlyByTheGate(c, Step(c, s, es[0]), es[1..], id);
    }
  }

  /** Main result: over every run, no message of a connection is ever routed unless the gate said yes to that
    * connection, whatever it sent before or while the question was open. */
  lemma NothingRoutedBeforeAdmission(c: Config, es: seq<Event>, id: Id)
    requires AllEnabled(c, START, es) && forall i | 0 <= i < |es| :: !SaysYes(es[i], id)
    ensures id in Exec(c, START, es).conns ==> Exec(c, START, es).conns[id].started == [] && Exec(c, START, es).conns[id].enqueued == []
  {
    AdmittedOnlyByTheGate(c, START, es, id);
    hide Exec;
    if id in Exec(c, START, es).conns { assert ConnOk(Exec(c, START, es).conns[id]); }
  }

  /** A usable frame that carries a good credential. */
  predicate Vouches(e: Event, id: Id) {
    e.Frame? && e.id == id && e.usable && e.good
  }

  /** What one frame does: dropped while the question is open or when it is not usable, queued once admitted, and
    * otherwise a good credential raises the question and a bad one closes the socket. */
  lemma FrameDecides(k: Conn, msg: Msg, usable: bool, good: bool)
    ensures var t := OnFrame(k, msg, usable, good);
            && (k.admitting || !usable ==> t == k)
            && (!k.admitting && usable && !k.authenticated && good ==> t == k.(admitting := true))
            && (!k.admitting && usable && !k.authenticated && !good ==> t == k.(open := false))
            && (!k.admitting && usable && k.authenticated && k.closing.NotClosed? ==>
                  && t.enqueued == k.enqueued + [msg] && t.admitting == k.admitting && t.open == k.open
                  && (k.running.None? && k.queue == [] ==> t.running == Some(msg) && t.started == k.started + [msg])
                  && (k.running.Some? ==> t.running == k.running && t.started == k.started && t.queue == k.queue + [msg]))
            && (!k.admitting && usable && k.authenticated && !k.closing.NotClosed? ==> t == k)
  {
    assert k.queue == [] ==> (k.queue + [msg])[0] == msg;
  }

  lemma OnlyAVoucherAsks(c: Config, s: State, e: Event, id: Id)
    requires AllOk(s) && Enabled(s, e) && !Vouches(e, id) && (id in s.conns ==> !s.conns[id].authenticated && !s.conns[id].admitting)
    ensures id in Step(c, s, e).conns ==> !Step(c, s, e).conns[id].authenticated && !Step(c, s, e).conns[id].admitting
  {
    hide Advance, ConnOk;
    match e
    case Frame(x, msg, usable, good) => if x == id { FrameDecides(s.conns[x], msg, usable, good); }
    case HandlerSettles(x) => AdvanceAdmitsNobody(s.conns[x]);
    case _ =>
    hide OnFrame;
  }

  /** Main result: over every run, without a frame that carries a good credential a connection is never admitted, nor is
    * anybody asked about it. */
  lemma {:induction false} NobodyIsAskedForNothing(c: Config, s: State, es: seq<Event>, id: Id)
    requires AllOk(s) && AllEnabled(c, s, es) && (id in s.conns ==> !s.conns[id].authenticated && !s.conns[id].admitting)
    requires forall i | 0 <= i < |es| :: !Vouches(es[i], id)
    ensures id in Exec(c, s, es).conns ==> !Exec(c, s, es).conns[id].authenticated && !Exec(c, s, es).conns[id].admitting
    decreases |es|
  {
    if es != [] {
      assert !Vouches(es[0], id);
      OnlyAVoucherAsks(c, s, es[0], id);
      StepKeepsOk(c, s, es[0]);
      forall i | 0 <= i < |es[1..]| ensures !Vouches(es[1..][i], id) { assert es[1..][i] == es[i + 1]; }
      hide AllOk, Step, Enabled, Vouches;
      NobodyIsAskedForNothing(c, Step(c, s, es[0]), es[1..], id);
    }
  }

  /** The gate's answer: a yes admits a socket that is still open, and nothing else does. */
  lemma GateDecides(k: Conn, admitted: bool)
    ensures var t := OnAdmitted(k, admitted);
            t == k.(admitting := false, authenticated := k.authenticated || (k.open && admitted), open := k.open && admitted)
  {
  }

  lemma {:induction false} RunsKeepOk(c: Config, s: State, es: seq<Event>)
    requires AllOk(s) && AllEnabled(c, s, es)
    ensures AllOk(Exec(c, s, es))
    decreases |es|
  {
    hide AllOk, Step, Enabled;
    if es != [] {
      StepKeepsOk(c, s, es[0]);
      RunsKeepOk(c, Step(c, s, es[0]), es[1..]);
    }
  }

  /** Main result: over every run, what a connection's handlers ran is a prefix of what was put in its queue, in
    * order, one at a time; and by the time its close event goes on to removal, all of it has run. */
  lemma QueueIsFifo(c: Config, es: seq<Event>, id: Id)
    requires AllEnabled(c, START, es) && id in Exec(c, START, es).conns
    ensures var k := Exec(c, START, es).conns[id];
            && k.started <= k.enqueued
            && (k.closing.Drained? ==> k.started == k.enqueued && k.running.None?)
  {
    RunsKeepOk(c, START, es);
    hide Exec;
    assert ConnOk(Exec(c, START, es).conns[id]);
  }

  /** The relay's connection table and the sockets it holds, changed in place. Connections are held by value. */
  class Relay {
    const config: Config
    var conns: map<Id, Conn>
    var table: set<Id>
    var ipCounts: map<Ip, int>
    var next: nat

    ghost function View(): State
      reads this
    {
      State(conns, table, ipCounts, next)
    }

    constructor (config: Config)
      ensures this.config == config && View() == START
    {
      this.config := config;
      conns, table, ipCounts, next := map[], {}, map[], 0;
    }

    method OnConnection(ip: Ip) returns (accepted: bool)
      modifies this
      ensures (View(), accepted) == Accept(config, old(View()), ip)
    {
      if |table| >= config.maxConnections { return false; }
      var held := if ip in ipCounts then ipCounts[ip] else 0;
      if held >= config.maxPerIp { return false; }
      conns := conns[next := Conn(ip, true, false, false, NotClosed, [], None, 0, [], [])];
      table := table + {next};
      ipCounts := ipCounts[ip := held + 1];
      next := next + 1;
      accepted := true;
    }

    method RemoveConnection(id: Id)
      requires id in conns
      modifies this
      ensures View() == FinishRemoval(old(View()), id)
    {
      var k := conns[id];
      var left := (if k.ip in ipCounts then ipCounts[k.ip] else 1) - 1;
      if left <= 0 { ipCounts := ipCounts - {k.ip}; } else { ipCounts := ipCounts[k.ip := left]; }
      conns := conns[id := k.(removals := if k.removals > 0 then k.removals - 1 else 0)];
      table := table - {id};
    }

    /** One callback firing is one step of the machine, so every run of this object is a run of it. */
    method Fire(e: Event)
      requires Enabled(View(), e)
      modifies this
      ensures View() == Step(config, old(View()), e)
    {
      hide Advance, Enqueue;
      match e
      case Connects(ip) => var _ := OnConnection(ip);
      case Frame(id, msg, usable, good) => conns := conns[id := OnFrame(conns[id], msg, usable, good)];
      case GateSettles(id, admitted) => conns := conns[id := OnAdmitted(conns[id], admitted)];
      case HandlerSettles(id) => conns := conns[id := Advance(conns[id])];
      case SocketCloses(id) => conns := conns[id := OnClose(conns[id])];
      case DrainSettles(id) => conns := conns[id := OnDrained(conns[id])];
      case Disconnects(id) => conns := conns[id := OnDisconnect(conns[id])];
      case ServerCloses(id) => conns := conns[id := OnServerClose(conns[id])];
      case RemovalSettles(id) => RemoveConnection(id);
    }
  }
}
