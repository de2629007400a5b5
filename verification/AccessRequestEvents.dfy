/** What a request to a machine must bring about, told from the messages that came (apps/api/src/broker.ts). */
module AccessRequestEvents {
  import opened Options
  import opened AccessRequests

  // ---------------------------------------------------------------------------
  // One message at a time
  // ---------------------------------------------------------------------------

  /** The request is stored and has time left. */
  predicate Live(s: State, id: RequestId, now: int) {
    id in s.requests && now < s.requests[id].expiresAt
  }

  /** Nothing about any other request, nor about what was said, has changed. */
  predicate OnlyAbout(s: State, t: State, id: RequestId) {
    t.log == s.log && forall x | x in s.requests && x != id :: x in t.requests && t.requests[x] == s.requests[x]
  }

  /** A message about a request that is not there, or has run out, does nothing but forget it. */
  lemma DeadRequestsAreDeaf(c: Config, s: State, id: RequestId, e: Event)
    requires (e.Attaches? || e.Commits? || e.Reveals? || e.Replies?) && e.id == id && !Live(s, id, e.now)
    ensures var t := Step(c, s, e);
            OnlyAbout(s, t, id) && id !in t.requests
  {
  }

  /** Asking opens a request exactly when the machine is online and has none with time left. */
  lemma AskingOpens(c: Config, s: State, id: RequestId, device: Device, online: bool, now: int)
    requires Inv(s)
    ensures var (t, accepted) := PairRequest(c, s, id, device, online, now);
            && (accepted <==> online && forall x | x in s.requests && s.requests[x].device == device :: s.requests[x].expiresAt <= now)
            && (accepted ==>
                  && id in t.requests && t.requests[id] == Request(device, now + c.requestTtl, false, None, [])
                  && device in t.pendingByDevice && t.pendingByDevice[device] == id && t.log == s.log + [Asked(id, device)])
            && (!accepted ==> t.log == s.log)
  {
    forall x | x in s.requests && s.requests[x].device == device
      ensures device in s.pendingByDevice && s.pendingByDevice[device] == x
    {
      assert RequestOk(s, x);
    }
    if device in s.pendingByDevice { assert DeviceOk(s, device); }
    hide Inv;
  }

  /** The first socket of a live request attaches; a second is refused. */
  lemma FirstSocketAttaches(c: Config, s: State, id: RequestId, socket: Socket, now: int)
    requires Live(s, id, now)
    ensures var (t, attached) := Attach(s, id, socket, now);
            && (attached <==> s.requests[id].browser.None?)
            && (attached ==> t.requests == s.requests[id := s.requests[id].(browser := Some(socket), pending := [])])
            && (!attached ==> t == s)
  {
    if s.requests[id].browser.None? {
      SendsGrow(Joined(s, id, socket), id, s.requests[id].pending, id);
    }
    hide NoteSends, Early, Late, SentTo, Tally;
  }

  /** The first commitment of a live request goes to its machine; a later one does not; with the machine gone the request ends. */
  lemma FirstCommitIsForwarded(c: Config, s: State, id: RequestId, online: bool, now: int)
    requires Live(s, id, now)
    ensures var t := Commit(s, id, online, now);
            && (!online ==> id !in t.requests && OnlyAbout(s, t, id))
            && (online && s.requests[id].forwarded ==> t == s)
            && (online && !s.requests[id].forwarded ==>
                  t.requests == s.requests[id := s.requests[id].(forwarded := true)] && t.log == s.log + [Forwarded(id, s.requests[id].device)])
  {
  }

  /** A reveal goes to the machine after the commitment, never before. */
  lemma RevealFollowsCommit(c: Config, s: State, id: RequestId, online: bool, now: int)
    requires Live(s, id, now)
    ensures var t := Reveal(s, id, online, now);
            && (!online ==> id !in t.requests && OnlyAbout(s, t, id))
            && (online && s.requests[id].forwarded ==> t.requests == s.requests && t.log == s.log + [Revealed(id, s.requests[id].device)])
            && (online && !s.requests[id].forwarded ==> t == s)
  {
  }

  /** Only the machine asked is heard: any other's reply changes nothing. A decision ends the request. */
  lemma OnlyItsMachineIsHeard(c: Config, s: State, from: Device, id: RequestId, reply: Reply, now: int)
    requires Live(s, id, now)
    ensures var t := AgentReplies(c, s, from, id, reply, now);
            var said := [Replied(id, from, reply)] + if s.requests[id].browser.Some? then [Sent(id, reply)] else [];
            && (from != s.requests[id].device ==> t == s)
            && (from == s.requests[id].device ==> t.log == s.log + said && (id in t.requests <==> reply.Ack?))
  {
    assert s.log + [Replied(id, from, reply)] + [Sent(id, reply)] == s.log + ([Replied(id, from, reply)] + [Sent(id, reply)]);
    assert s.log + [Replied(id, from, reply)] == s.log + ([Replied(id, from, reply)] + []);
  }

  // ---------------------------------------------------------------------------
  // Whole runs
  // ---------------------------------------------------------------------------

  /** A browser that goes takes its request with it, and nothing else. */
  lemma GoingForgets(c: Config, s: State, id: RequestId)
    ensures var t := Step(c, s, Closes(id));
            id !in t.requests && OnlyAbout(s, t, id)
  {
  }

  /** What a walk over some ids leaves: every other request, and of those walked the ones with time left. */
  lemma {:induction false} SweepLeaves(s: State, order: seq<RequestId>, now: int)
    ensures var t := Sweep(s, order, now);
            && t.log == s.log
            && forall x :: x in t.requests <==> x in s.requests && (x in order ==> now < s.requests[x].expiresAt)
    ensures forall x | x in Sweep(s, order, now).requests :: Sweep(s, order, now).requests[x] == s.requests[x]
  {
    hide LiveRequest;
    if order != [] {
      var rest, last := order[..|order| - 1], order[|order| - 1];
      SweepLeaves(s, rest, now);
      LookingForgets(Sweep(s, rest, now), last, now);
      assert order == rest + [last];
    }
  }

  lemma LookingForgets(s: State, id: RequestId, now: int)
    ensures var t := LiveRequest(s, id, now).0;
            && t.log == s.log && (forall x :: x in t.requests <==> x in s.requests && (x == id ==> now < s.requests[x].expiresAt))
            && forall x | x in t.requests :: t.requests[x] == s.requests[x]
  {
  }

  /** Main result: a sweep over every request forgets exactly those that have run out. */
  lemma SweepForgetsExactlyTheExpired(c: Config, s: State, order: seq<RequestId>, now: int)
    requires forall x | x in s.requests :: x in order
    ensures var t := Step(c, s, Sweeps(order, now));
            && t.log == s.log && t.requests == map x | x in s.requests && now < s.requests[x].expiresAt :: s.requests[x]
  {
    SweepLeaves(s, order, now);
  }

  /** The browser asked this of the machine, and the machine itself replied later. */
  ghost predicate ItsMachineSaid(es: seq<Event>, id: RequestId, reply: Reply) {
    exists i: nat, j: nat, device :: AsksFor(es, i, id, device) && i < j && SaysSo(es, j, id, device, reply)
  }

  predicate AsksFor(es: seq<Event>, i: nat, id: RequestId, device: Device) {
    i < |es| && es[i].Asks? && es[i].id == id && es[i].device == device && es[i].online
  }

  predicate SaysSo(es: seq<Event>, j: nat, id: RequestId, device: Device, reply: Reply) {
    j < |es| && es[j].Replies? && es[j].from == device && es[j].id == id && es[j].reply == reply
  }

  lemma {:induction false} LastEnabled(c: Config, s: State, es: seq<Event>)
    requires AllEnabled(c, s, es) && es != []
    ensures AllEnabled(c, s, es[..|es| - 1]) && Enabled(Exec(c, s, es[..|es| - 1]), es[|es| - 1])
    ensures Exec(c, s, es) == Step(c, Exec(c, s, es[..|es| - 1]), es[|es| - 1])
    decreases |es|
  {
    hide Step, Enabled;
    if |es| > 1 {
      assert es[..|es| - 1][1..] == es[1..][..|es| - 2];
      LastEnabled(c, Step(c, s, es[0]), es[1..]);
    }
  }

  ghost predicate AskedFor(es: seq<Event>, id: RequestId, device: Device) {
    exists i: nat :: AsksFor(es, i, id, device)
  }

  /** Stored requests were asked for, and every reply kept or sent was its machine's. */
  ghost predicate Told(es: seq<Event>, s: State) {
    && (forall x | x in s.requests :: AskedFor(es, x, s.requests[x].device))
    && (forall x, k | x in s.requests && 0 <= k < |s.requests[x].pending| :: ItsMachineSaid(es, x, s.requests[x].pending[k]))
    && (forall k | 0 <= k < |s.log| :: EntryTold(es, s.log[k]))
  }

  ghost predicate EntryTold(es: seq<Event>, e: Entry) {
    match e
    case Replied(id, _, reply) => ItsMachineSaid(es, id, reply)
    case Sent(id, reply) => ItsMachineSaid(es, id, reply)
    case Asked(id, device) => AskedFor(es, id, device)
    case _ => true
  }

  lemma AskedForStays(es: seq<Event>, e: Event, id: RequestId, device: Device)
    requires AskedFor(es, id, device)
    ensures AskedFor(es + [e], id, device)
  {
    var i: nat :| AsksFor(es, i, id, device);
    assert AsksFor(es + [e], i, id, device);
  }

  lemma SaidStays(es: seq<Event>, e: Event, id: RequestId, reply: Reply)
    requires ItsMachineSaid(es, id, reply)
    ensures ItsMachineSaid(es + [e], id, reply)
  {
    var i: nat, j: nat, device :| AsksFor(es, i, id, device) && i < j && SaysSo(es, j, id, device, reply);
    assert AsksFor(es + [e], i, id, device) && SaysSo(es + [e], j, id, device, reply);
  }

  lemma NowSaid(es: seq<Event>, from: Device, id: RequestId, reply: Reply, now: int)
    requires AskedFor(es, id, from)
    ensures ItsMachineSaid(es + [Replies(from, id, reply, now)], id, reply)
  {
    var more := es + [Replies(from, id, reply, now)];
    var i: nat :| AsksFor(es, i, id, from);
    assert AsksFor(more, i, id, from) && SaysSo(more, |es|, id, from, reply);
  }

  /** What one message may store and say. */
  ghost predicate OneStep(s: State, e: Event, t: State) {
    && (forall x | x in t.requests :: x in s.requests || (e.Asks? && e.online && x == e.id))
    && (forall x | x in t.requests && x in s.requests && !(e.Asks? && x == e.id) :: t.requests[x].device == s.requests[x].device)
    && (e.Asks? && e.id in t.requests ==> (e.id in s.requests && t.requests[e.id] == s.requests[e.id]) || (e.online && t.requests[e.id].device == e.device && t.requests[e.id].pending == []))
    && (forall x, k | x in t.requests && x in s.requests && !(e.Asks? && x == e.id) && 0 <= k < |t.requests[x].pending| ::
          (k < |s.requests[x].pending| && t.requests[x].pending[k] == s.requests[x].pending[k]) || Heard(s, e, x, t.requests[x].pending[k]))
    && s.log <= t.log
    && (forall k | |s.log| <= k < |t.log| :: NewEntry(s, e, t.log[k]))
  }

  predicate Heard(s: State, e: Event, id: RequestId, reply: Reply) {
    e.Replies? && e.id == id && e.reply == reply && id in s.requests && s.requests[id].device == e.from
  }

  predicate NewEntry(s: State, e: Event, x: Entry) {
    match x
    case Asked(id, device) => e.Asks? && e.id == id && e.device == device && e.online
    case Replied(id, _, reply) => Heard(s, e, id, reply)
    case Sent(id, reply) => Heard(s, e, id, reply) || (id in s.requests && reply in s.requests[id].pending)
    case _ => true
  }

  lemma LiveSteps(s: State, e: Event, id: RequestId, now: int)
    ensures var t := LiveRequest(s, id, now).0;
            && t.log == s.log && t.requests.Keys <= s.requests.Keys && forall x | x in t.requests :: t.requests[x] == s.requests[x]
  {
  }

  lemma {:induction false} SweepSteps(s: State, order: seq<RequestId>, now: int)
    ensures var t := Sweep(s, order, now);
            && t.log == s.log && t.requests.Keys <= s.requests.Keys && forall x | x in t.requests :: t.requests[x] == s.requests[x]
  {
    hide LiveRequest;
    if order != [] {
      SweepSteps(s, order[..|order| - 1], now);
      LiveSteps(Sweep(s, order[..|order| - 1], now), Closes(""), order[|order| - 1], now);
    }
  }

  lemma {:induction false} SendsStep(s: State, id: RequestId, replies: seq<Reply>)
    ensures var t := NoteSends(s, id, replies);
            && t.requests == s.requests && s.log <= t.log
            && forall k | |s.log| <= k < |t.log| :: t.log[k].Sent? && t.log[k].id == id && t.log[k].reply in replies
  {
    if replies != [] {
      SendsStep(s, id, replies[..|replies| - 1]);
      assert forall r | r in replies[..|replies| - 1] :: r in replies;
    }
  }

  /** Forgetting requests is a step that says nothing. */
  lemma QuietStep(s: State, e: Event, t: State)
    requires t.log == s.log && t.requests.Keys <= s.requests.Keys && forall x | x in t.requests :: t.requests[x] == s.requests[x]
    ensures OneStep(s, e, t)
  {
  }

  lemma AskStep(c: Config, s: State, e: Event)
    requires e.Asks? && e.online
    ensures OneStep(s, e, Step(c, s, e))
  {
    hide LiveRequest;
    var device := e.device;
    var t := if device in s.pendingByDevice then LiveRequest(s, s.pendingByDevice[device], e.now).0 else s;
    if device in s.pendingByDevice { LiveSteps(s, e, s.pendingByDevice[device], e.now); }
    QuietStep(s, e, s);
    QuietStep(s, e, t);
    OpenStep(c, s, t, e);
    hide OneStep, Open;
  }

  lemma OpenStep(c: Config, s: State, t: State, e: Event)
    requires e.Asks? && e.online && t.log == s.log && t.requests.Keys <= s.requests.Keys && forall x | x in t.requests :: t.requests[x] == s.requests[x]
    ensures OneStep(s, e, Open(c, t, e.id, e.device, e.now))
  {
  }

  lemma AttachStep(c: Config, s: State, e: Event)
    requires e.Attaches?
    ensures OneStep(s, e, Step(c, s, e))
  {
    hide LiveRequest, NoteSends;
    LiveSteps(s, e, e.id, e.now);
    LiveIsStored(s, e.id, e.now);
    var (t, live) := LiveRequest(s, e.id, e.now);
    if live.Some? && live.value.browser.None? {
      SendsStep(Joined(t, e.id, e.socket), e.id, live.value.pending);
    } else {
      QuietStep(s, e, t);
    }
  }

  lemma CommitStep(c: Config, s: State, e: Event)
    requires e.Commits? || e.Reveals?
    ensures OneStep(s, e, Step(c, s, e))
  {
    hide LiveRequest;
    LiveSteps(s, e, e.id, e.now);
    LiveIsStored(s, e.id, e.now);
    var (t, live) := LiveRequest(s, e.id, e.now);
    if live.None? { QuietStep(s, e, t); }
    QuietStep(s, e, DropRequest(s, e.id));
  }

  lemma ReplyStep(c: Config, s: State, e: Event)
    requires e.Replies?
    ensures OneStep(s, e, Step(c, s, e))
  {
    hide LiveRequest;
    LiveSteps(s, e, e.id, e.now);
    LiveIsStored(s, e.id, e.now);
    var (t, live) := LiveRequest(s, e.id, e.now);
    if live.None? || live.value.device != e.from { QuietStep(s, e, t); }
  }

  lemma ApplyIsOneStep(c: Config, s: State, e: Event)
    ensures OneStep(s, e, Step(c, s, e))
  {
    if e.Closes? { QuietStep(s, e, DropRequest(s, e.id)); }
    hide OneStep, Sweep, PairRequest, Attach, Commit, Reveal, AgentReplies;
    match e
    case Asks(_, _, _, _) => if e.online { AskStep(c, s, e); } else { AskOffline(c, s, e); }
    case Attaches(_, _, _) => AttachStep(c, s, e);
    case Commits(_, _, _) => CommitStep(c, s, e);
    case Reveals(_, _, _) => CommitStep(c, s, e);
    case Closes(_) =>
    case Replies(_, _, _, _) => ReplyStep(c, s, e);
    case Sweeps(order, now) => SweepSteps(s, order, now); QuietStep(s, e, Sweep(s, order, now));
  }

  lemma AskOffline(c: Config, s: State, e: Event)
    requires e.Asks? && !e.online
    ensures OneStep(s, e, Step(c, s, e))
  {
    QuietStep(s, e, s);
    hide OneStep;
  }

  lemma LiveIsStored(s: State, id: RequestId, now: int)
    ensures var (t, live) := LiveRequest(s, id, now);
            live.Some? ==> t == s && id in s.requests && live.value == s.requests[id]
  {
  }

  lemma TellOneMore(es: seq<Event>, s: State, e: Event, t: State)
    requires Told(es, s) && OneStep(s, e, t)
    ensures Told(es + [e], t)
  {
    hide AskedFor, ItsMachineSaid;
    assert (es + [e])[|es|] == e;
    forall x | x in t.requests ensures AskedFor(es + [e], x, t.requests[x].device) {
      if x in s.requests && t.requests[x].device == s.requests[x].device { AskedForStays(es, e, x, s.requests[x].device); }
      else { NowAsked(es, e, x, t.requests[x].device); }
    }
    forall x, k | x in t.requests && 0 <= k < |t.requests[x].pending| ensures ItsMachineSaid(es + [e], x, t.requests[x].pending[k]) {
      var reply := t.requests[x].pending[k];
      if Heard(s, e, x, reply) { NowSaid(es, e.from, x, reply, e.now); assert e == Replies(e.from, x, reply, e.now); }
      else { assert k < |s.requests[x].pending| && s.requests[x].pending[k] == reply; SaidStays(es, e, x, reply); }
    }
    forall k | 0 <= k < |t.log| ensures EntryTold(es + [e], t.log[k]) {
      var x := t.log[k];
      if k < |s.log| {
        assert x == s.log[k] && EntryTold(es, x);
        match x
        case Replied(id, _, reply) => SaidStays(es, e, id, reply);
        case Sent(id, reply) => SaidStays(es, e, id, reply);
        case Asked(id, device) => AskedForStays(es, e, id, device);
        case _ =>
      } else {
        assert NewEntry(s, e, x);
        match x
        case Replied(id, _, reply) => NowSaid(es, e.from, id, reply, e.now); assert e == Replies(e.from, id, reply, e.now);
        case Sent(id, reply) =>
          if Heard(s, e, id, reply) { NowSaid(es, e.from, id, reply, e.now); assert e == Replies(e.from, id, reply, e.now); }
          else {
            var i :| 0 <= i < |s.requests[id].pending| && s.requests[id].pending[i] == reply;
            SaidStays(es, e, id, reply);
          }
        case Asked(id, device) => NowAsked(es, e, id, device);
        case _ =>
      }
    }
  }

  lemma NowAsked(es: seq<Event>, e: Event, id: RequestId, device: Device)
    requires e.Asks? && e.id == id && e.device == device && e.online
    ensures AskedFor(es + [e], id, device)
  {
    assert AsksFor(es + [e], |es|, id, device);
  }

  lemma {:induction false} RunsAreTold(c: Config, es: seq<Event>)
    requires AllEnabled(c, START, es)
    ensures Told(es, Exec(c, START, es))
    decreases |es|
  {
    if es != [] {
      var before, e := es[..|es| - 1], es[|es| - 1];
      LastEnabled(c, START, es);
      RunsAreTold(c, before);
      ApplyIsOneStep(c, Exec(c, START, before), e);
      assert before + [e] == es;
      hide Exec, Step, Told, OneStep, Enabled;
      TellOneMore(before, Exec(c, START, before), e, Exec(c, START, es));
    }
  }

  /** Main result: over every run, whatever a request's browser is sent was said by the very machine the request was asked
    * of, after it was asked. */
  lemma BrowserHearsItsMachineOnly(c: Config, es: seq<Event>, id: RequestId, reply: Reply)
    requires AllEnabled(c, START, es)
    ensures Sent(id, reply) in Exec(c, START, es).log ==> ItsMachineSaid(es, id, reply)
  {
    RunsAreTold(c, es);
    hide Exec, ItsMachineSaid;
    var log := Exec(c, START, es).log;
    if Sent(id, reply) in log {
      var k :| 0 <= k < |log| && log[k] == Sent(id, reply);
      assert EntryTold(es, log[k]);
    }
  }
}
