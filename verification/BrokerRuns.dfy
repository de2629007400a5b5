/** The pairing broker over whole runs. */
module BrokerRuns {
  import opened Options
  import opened Mailboxes
  import opened BrokerState
  import opened BrokerProofs
  import RateLimit

  /** One charge of a slot's guessing budget, and how many mailboxes the attach it paid for spent. */
  datatype Charge = Charge(slot: Slot, at: int, spent: nat)

  datatype Holder = Holder(box: Id, established: bool)

  datatype Sys = Sys(b: State, clock: int, holders: map<Sock, Holder>, claimants: map<Sock, Id>,
                     log: seq<RateLimit.Hit>, charges: seq<Charge>)

  /** A step is one callback with its clock reading. Two things are assumed of the outside: the clock never goes
    * backwards, and the ids, peer handles and sockets it supplies are new. Frames and closes may come at any
    * time, in any order, on any socket that was ever attached, even one the broker has already closed. */
  datatype Event =
    | NewMailbox(now: int, slot: Slot, id: Id)
    | NewClaim(now: int, c: Id, slot: Slot, payload: Payload)
    | DialMailbox(now: int, id: Id, sock: Sock)
    | HolderSays(now: int, sock: Sock, msg: ClientMsg)
    | HolderGone(now: int, sock: Sock)
    | DialClaim(now: int, c: Id, sock: Sock, handles: seq<Id>)
    | ClaimantSays(now: int, sock: Sock, msg: ClientMsg)
    | ClaimantGone(now: int, sock: Sock, order: seq<Id>)
    | Sweep(now: int, later: int)

  function Start(ttl: int, perSlot: nat, overall: nat, windowMs: int, clock: int): Sys {
    Sys(State(NewStore(ttl), map[], RateLimit.NewLimiter(perSlot, windowMs), RateLimit.NewLimiter(overall, windowMs)),
        clock, map[], map[], [], [])
  }

  predicate Enabled(s: Sys, e: Event) {
    && s.clock <= e.now
    && match e
       case NewMailbox(_, _, id) => id !in s.b.st.boxes
       case NewClaim(_, c, _, _) => c !in s.b.st.claims
       case DialMailbox(_, _, sock) => sock !in s.holders && sock !in s.claimants
       case HolderSays(_, sock, _) => sock in s.holders
       case HolderGone(_, sock) => sock in s.holders
       case DialClaim(_, _, sock, handles) =>
         sock !in s.holders && sock !in s.claimants && |handles| == MAX_MAILBOXES_PER_SLOT && Fresh(s.b.st, handles)
       case ClaimantSays(_, sock, _) => sock in s.claimants
       case ClaimantGone(_, sock, order) =>
         sock in s.claimants && s.claimants[sock] in s.b.st.claims && forall p | p in s.b.st.claims[s.claimants[sock]].peers :: p in order
       case Sweep(now, later) => now <= later
  }

  /** Mailboxes that belonged to no claim before and do after. */
  function Spent(s: Store, t: Store): set<Id> {
    set id | id in s.boxes && id in t.boxes && s.boxes[id].claimedBy.None? && t.boxes[id].claimedBy.Some?
  }

  /** Whether dialling this claim gets as far as its slot's budget, and the budget grants it. */
  predicate ChargesSlot(b: State, c: Id, now: int) {
    && GetClaim(b.st, c, now).1 && c in b.st.claims && b.st.claims[c].mail.sink.None?
    && RateLimit.Take(b.slotLimit, SlotKey(b.st.claims[c].slot), now).1
  }

  /** Every handler and claimant names a record that exists. */
  predicate SocketsOk(s: Sys) {
    && (forall sock | sock in s.holders :: s.holders[sock].box in s.b.st.boxes)
    && (forall sock | sock in s.claimants :: s.claimants[sock] in s.b.st.claims)
    && s.b.st.stored <= s.b.st.boxes.Keys && s.b.st.open <= s.b.st.claims.Keys
  }

  function Next(s: Sys, e: Event): Sys
    requires SocketsOk(s) && Enabled(s, e)
  {
    var s := s.(clock := if e.Sweep? then e.later else e.now);
    match e
    case NewMailbox(now, slot, id) =>
      s.(b := s.b.(st := CreateMailbox(s.b.st, slot, id, now).0))
    case NewClaim(now, c, slot, payload) =>
      s.(b := PairClaim(s.b, c, slot, payload, now))
    case DialMailbox(now, id, sock) =>
      var (b, outcome) := AttachMailbox(s.b, id, sock, now);
      s.(b := b, holders := if outcome.Attached? then s.holders[sock := Holder(id, false)] else s.holders)
    case HolderSays(now, sock, msg) =>
      var h := s.holders[sock];
      var (b, established, _) := MailboxMessage(s.b, h.box, h.established, msg, now);
      s.(b := b, holders := s.holders[sock := h.(established := established)])
    case HolderGone(now, sock) =>
      s.(b := MailboxClosed(s.b, s.holders[sock].box, s.holders[sock].established))
    case DialClaim(now, c, sock, handles) =>
      var (b, outcome) := AttachClaim(s.b, c, sock, handles, now);
      var charged := ChargesSlot(s.b, c, now);
      s.(b := b,
         claimants := if outcome.Attached? then s.claimants[sock := c] else s.claimants,
         log := if charged then s.log + [RateLimit.Hit(SlotKey(s.b.st.claims[c].slot), now)] else s.log,
         charges := if charged then s.charges + [Charge(s.b.st.claims[c].slot, now, |Spent(s.b.st, b.st)|)] else s.charges)
    case ClaimantSays(now, sock, msg) =>
      s.(b := ClaimMessage(s.b, s.claimants[sock], msg, now).0)
    case ClaimantGone(now, sock, order) =>
      s.(b := ClaimClosed(s.b, s.claimants[sock], order, now))
    case Sweep(now, later) =>
      s.(b := SweepAll(s.b, now, later))
  }

  // ---------------------------------------------------------------------------
  // What a step may do to a mailbox's record
  // ---------------------------------------------------------------------------

  /** The same record, except perhaps for its mail. */
  predicate Kept(before: Box, after: Box) {
    after == before.(mail := after.mail)
  }

  /** A record nobody had claimed, now this claim's. */
  predicate Taken(before: Box, after: Box, c: Id) {
    before.claimedBy.None? && after == before.(claimedBy := Some(c), peer := after.peer, mail := after.mail)
  }

  /** Records stay, and keep everything but their mail. */
  predicate Steady(s: Store, t: Store) {
    && s.ttl == t.ttl
    && (forall id | id in s.boxes :: id in t.boxes && Kept(s.boxes[id], t.boxes[id]))
    && (forall c | c in s.claims :: c in t.claims && t.claims[c].slot == s.claims[c].slot)
  }

  /** Records stay; a mailbox on this slot that nobody had claimed may now be `c`'s. */
  predicate SpendsFor(s: Store, t: Store, c: Id, slot: Slot) {
    && s.ttl == t.ttl
    && (forall id | id in s.boxes :: id in t.boxes)
    && (forall id | id in s.boxes :: Kept(s.boxes[id], t.boxes[id]) || (s.boxes[id].slot == slot && Taken(s.boxes[id], t.boxes[id], c)))
    && (forall d | d in s.claims :: d in t.claims && t.claims[d].slot == s.claims[d].slot)
  }

  lemma SteadySpendsNothing(s: Store, t: Store, c: Id, slot: Slot)
    requires Steady(s, t)
    ensures SpendsFor(s, t, c, slot) && Spent(s, t) == {}
  {
  }

  lemma HolderIsSteady(b: State, id: Id, established: bool, msg: ClientMsg, now: int)
    requires Inv(b) && id in b.st.boxes
    ensures Steady(b.st, MailboxMessage(b, id, established, msg, now).0.st)
  {
    hide StoreInv, ClaimFor, Deliver, MailboxMessage;
    if ClaimFor(b.st, id, now).1.Some? {
      HolderRelays(b, id, established, msg, now);
    } else {
      HolderAlone(b, id, established, msg, now);
    }
  }

  lemma ClaimantIsSteady(b: State, c: Id, msg: ClientMsg, now: int)
    requires Inv(b) && c in b.st.claims
    ensures Steady(b.st, ClaimMessage(b, c, msg, now).0.st)
  {
    hide StoreInv, OwnedMailbox, Deliver, Remove;
    if msg.Close? && msg.about.Some? {
      BurnIsSteady(b.st, c, msg.about.value, now);
      hide BurnOwned;
    } else if !msg.Malformed? && !msg.Close? {
      OwnedMailboxFacts(b.st, c, msg.peer, now);
      var (s, owned) := OwnedMailbox(b.st, c, msg.peer, now);
      if owned.Some? { RemoveFrame(ToBox(s, owned.value, ClaimantRelay(msg, msg.peer)), {owned.value}); }
    }
  }

  lemma BurnIsSteady(s: Store, c: Id, peer: Id, now: int)
    requires StoreInv(s) && c in s.claims
    ensures Steady(s, BurnOwned(s, c, peer, now)) && BurnOwned(s, c, peer, now).claims == s.claims
  {
    hide StoreInv, OwnedMailbox, Deliver, Remove;
    OwnedMailboxFacts(s, c, peer, now);
    var (t, owned) := OwnedMailbox(s, c, peer, now);
    if owned.Some? { RemoveFrame(ToBox(t, owned.value, Failed(Some(peer), ConfirmationFailed)), {owned.value}); }
  }

  lemma {:induction false} BurnAllIsSteady(s: Store, c: Id, order: seq<Id>, now: int)
    requires StoreInv(s) && c in s.claims
    ensures Steady(s, BurnAll(s, c, order, now))
    decreases |order|
  {
    hide StoreInv, BurnOwned;
    if order != [] {
      BurnIsSteady(s, c, order[0], now);
      BurnOwnedFacts(s, c, order[0], now);
      BurnAllIsSteady(BurnOwned(s, c, order[0], now), c, order[1..], now);
    }
  }

  lemma {:induction false} SeqToSetSize(ids: seq<Id>)
    ensures |set x | x in ids| <= |ids|
  {
    if ids != [] {
      SeqToSetSize(ids[1..]);
      assert (set x | x in ids) == {ids[0]} + set x | x in ids[1..];
    }
  }

  /** Fan-out spends only the mailboxes it is given, all for this claim. */
  lemma {:induction false} FanOutSpends(s: Store, c: Id, ids: seq<Id>, handles: seq<Id>, payload: Payload)
    requires c in s.claims && forall id | id in ids :: id in s.boxes
    ensures var t := FanOut(s, c, ids, handles, payload);
            && t.ttl == s.ttl
            && (forall d | d in s.claims :: t.claims[d].slot == s.claims[d].slot)
            && (forall id | id in s.boxes :: t.boxes[id] == s.boxes[id] || (id in ids && Taken(s.boxes[id], t.boxes[id], c)))
    decreases |ids|
  {
    hide OfferOne, Deliver;
    if ids != [] && handles != [] {
      var u := OfferOne(s, c, ids[0], handles[0], payload);
      OfferOneFrame(s, c, ids[0], handles[0], payload);
      FanOutSpends(u, c, ids[1..], handles[1..], payload);
      assert forall id :: id in ids <==> id == ids[0] || id in ids[1..];
    }
  }

  lemma SpentWithin(s: Store, u: Store, c: Id, ids: seq<Id>, slot: Slot)
    requires forall id | id in s.boxes :: id in u.boxes && (u.boxes[id] == s.boxes[id] || (id in ids && Taken(s.boxes[id], u.boxes[id], c)))
    requires forall i | 0 <= i < |ids| :: ids[i] in s.boxes ==> s.boxes[ids[i]].slot == slot
    ensures |Spent(s, u)| <= |ids|
    ensures forall id | id in s.boxes :: Kept(s.boxes[id], u.boxes[id]) || (s.boxes[id].slot == slot && Taken(s.boxes[id], u.boxes[id], c))
  {
    SeqToSetSize(ids);
    SubsetSize(Spent(s, u), set x | x in ids);
  }

  /** Engaging a claim spends at most two mailboxes, all on its own slot and all for it. */
  lemma EngageSpends(b: State, c: Id, sock: Sock, handles: seq<Id>, now: int)
    requires Inv(b) && c in b.st.claims && b.st.claims[c].mail.sink.None?
    ensures var t := Engage(b, c, sock, handles, now).st;
            SpendsFor(b.st, t, c, b.st.claims[c].slot) && |Spent(b.st, t)| <= MAX_MAILBOXES_PER_SLOT
  {
    var slot := b.st.claims[c].slot;
    var s := Extended(b.st, c, sock, now);
    ReadyKeepsInv(b, c, sock, now);
    hide StoreInv, LiveMailboxesForSlot, FanOut, Extended, Taken, Kept, Spent, NoDup;
    if c in b.payloads {
      var (t, ids) := LiveMailboxesForSlot(s, slot, now);
      LiveFacts(s, slot, now);
      OfferedSpends(b.st, t, c, ids, handles, b.payloads[c], slot);
    } else {
      SpentWithin(b.st, s, c, [], slot);
    }
  }

  lemma OfferedSpends(s: Store, t: Store, c: Id, ids: seq<Id>, handles: seq<Id>, payload: Payload, slot: Slot)
    requires t.boxes == s.boxes && t.ttl == s.ttl && c in t.claims && s.claims.Keys == t.claims.Keys
    requires forall d | d in s.claims :: t.claims[d].slot == s.claims[d].slot
    requires forall i | 0 <= i < |ids| :: ids[i] in t.boxes && t.boxes[ids[i]].slot == slot
    ensures var u := FanOut(t, c, ids, handles, payload);
            SpendsFor(s, u, c, slot) && |Spent(s, u)| <= |ids|
  {
    FanOutSpends(t, c, ids, handles, payload);
    hide FanOut, Taken, Kept, Spent;
    SpentWithin(s, FanOut(t, c, ids, handles, payload), c, ids, slot);
  }

  lemma {:induction false} SubsetSize<T>(a: set<T>, b: set<T>)
    requires a <= b
    ensures |a| <= |b|
  {
    if a != {} {
      var x :| x in a;
      SubsetSize(a - {x}, b - {x});
    }
  }

  lemma DialIsSteady(b: State, id: Id, sock: Sock, now: int)
    requires Inv(b) && (id in b.st.stored ==> id in b.st.boxes)
    ensures Steady(b.st, AttachMailbox(b, id, sock, now).0.st)
  {
    hide StoreInv, Mailboxes.Attach, GetMailbox, Deliver;
    GetMailboxFacts(b.st, id, now);
  }

  lemma CreateIsSteady(s: Store, slot: Slot, id: Id, now: int)
    requires id !in s.boxes
    ensures Steady(s, CreateMailbox(s, slot, id, now).0)
  {
  }

  lemma DialClaimSpends(b: State, c: Id, sock: Sock, handles: seq<Id>, now: int)
    requires Inv(b) && (c in b.st.open ==> c in b.st.claims)
    ensures var t := AttachClaim(b, c, sock, handles, now).0.st;
            if ChargesSlot(b, c, now)
            then SpendsFor(b.st, t, c, b.st.claims[c].slot) && |Spent(b.st, t)| <= MAX_MAILBOXES_PER_SLOT
            else Steady(b.st, t)
  {
    hide StoreInv, Engage;
    if c in b.st.claims && b.st.claims[c].mail.sink.None? {
      var (charged, ok) := ChargeBudgets(b, b.st.claims[c].slot, now);
      ChargeFrame(b, b.st.claims[c].slot, now);
      EngageSpends(charged, c, sock, handles, now);
      hide RateLimit.Take, SpendsFor, Spent;
      SteadySpendsNothing(b.st, DestroyClaim(b.st, c), c, b.st.claims[c].slot);
      DropKeepsSpends(b.st, Engage(charged, c, sock, handles, now).st, c, b.st.claims[c].slot);
    }
  }

  lemma DropKeepsSpends(s: Store, t: Store, c: Id, slot: Slot)
    requires SpendsFor(s, t, c, slot)
    ensures SpendsFor(s, DestroyClaim(t, c), c, slot) && Spent(s, DestroyClaim(t, c)) == Spent(s, t)
  {
  }

  // ---------------------------------------------------------------------------
  // The limiter under the broker
  // ---------------------------------------------------------------------------

  lemma DialClaimBudget(b: State, c: Id, sock: Sock, handles: seq<Id>, now: int)
    requires c in b.st.open ==> c in b.st.claims
    ensures var l := AttachClaim(b, c, sock, handles, now).0.slotLimit;
            if GetClaim(b.st, c, now).1 && b.st.claims[c].mail.sink.None?
            then l == RateLimit.Take(b.slotLimit, SlotKey(b.st.claims[c].slot), now).0
            else l == b.slotLimit
  {
    hide RateLimit.Take, FanOut, LiveMailboxesForSlot;
  }

  lemma LimiterWaits(l: RateLimit.Limiter, log: seq<RateLimit.Hit>, clock: int, now: int)
    requires RateLimit.RunInv(RateLimit.Run(l, log, clock)) && clock <= now
    ensures RateLimit.RunInv(RateLimit.Run(l, log, now))
  {
    var r := RateLimit.Run(l, log, clock);
    forall key: RateLimit.Key ensures RateLimit.KeyAgrees(RateLimit.Run(l, log, now), key) {
      assert RateLimit.KeyAgrees(r, key);
      RateLimit.LaterAgrees(r, key, now);
    }
    forall key: RateLimit.Key, hi: int ensures RateLimit.WindowOk(RateLimit.Run(l, log, now), key, hi) {
      assert RateLimit.WindowOk(r, key, hi);
    }
  }

  // ---------------------------------------------------------------------------
  // The invariant of the whole system
  // ---------------------------------------------------------------------------

  function TotalSpent(charges: seq<Charge>): nat {
    if charges == [] then 0 else charges[0].spent + TotalSpent(charges[1..])
  }

  function Claimed(s: Store): set<Id> {
    set id | id in s.boxes && s.boxes[id].claimedBy.Some?
  }

  /** The charges are the slot budget's accepted takes, each having paid for at most two mailboxes. */
  predicate ChargesOk(charges: seq<Charge>, log: seq<RateLimit.Hit>) {
    && |charges| == |log|
    && forall i | 0 <= i < |charges| ::
         log[i] == RateLimit.Hit(SlotKey(charges[i].slot), charges[i].at) && charges[i].spent <= MAX_MAILBOXES_PER_SLOT
  }

  ghost predicate BudgetInv(s: Sys) {
    && RateLimit.RunInv(RateLimit.Run(s.b.slotLimit, s.log, s.clock))
    && ChargesOk(s.charges, s.log)
    && TotalSpent(s.charges) == |Claimed(s.b.st)|
  }

  ghost predicate SysInv(s: Sys) {
    Inv(s.b) && SocketsOk(s) && TimeInv(s.b.st, s.clock) && BudgetInv(s)
  }

  lemma InvKeepsSockets(s: Sys)
    requires Inv(s.b)
    ensures s.b.st.stored <= s.b.st.boxes.Keys && s.b.st.open <= s.b.st.claims.Keys
  {
    forall id | id in s.b.st.stored ensures id in s.b.st.boxes { assert IndexOk(s.b.st, id); }
  }

  lemma NextKeepsBroker(s: Sys, e: Event)
    requires SysInv(s) && Enabled(s, e)
    ensures Inv(Next(s, e).b)
  {
    hide BudgetInv, StoreInv;
    var b := s.b;
    match e
    case NewMailbox(now, slot, id) =>
      RemoveKeepsInv(b.st, LapsedOn(b.st, slot, now));
      if CreateMailbox(b.st, slot, id, now).1 {
        AddBoxKeepsInv(Remove(b.st, LapsedOn(b.st, slot, now)), slot, id, now);
      }
    case NewClaim(now, c, slot, payload) => CreateClaimKeepsInv(b.st, slot, c, now);
    case DialMailbox(now, id, sock) => AttachMailboxKeepsInv(b, id, sock, now);
    case HolderSays(now, sock, msg) => MailboxMessageKeepsInv(b, s.holders[sock].box, s.holders[sock].established, msg, now);
    case HolderGone(now, sock) => MailboxClosedKeepsInv(b, s.holders[sock].box, s.holders[sock].established);
    case DialClaim(now, c, sock, handles) => AttachClaimKeepsInv(b, c, sock, handles, now);
    case ClaimantSays(now, sock, msg) => ClaimMessageKeepsInv(b, s.claimants[sock], msg, now);
    case ClaimantGone(now, sock, order) => ClosedClaimOwnsNothing(b, s.claimants[sock], order, now);
    case Sweep(now, later) => SweepAllKeepsInv(b, now, later);
  }

  /** What one step does to the records: only a charged dial spends, at most two, all on the charged slot. */
  lemma StepSpends(s: Sys, e: Event)
    requires SysInv(s) && Enabled(s, e)
    ensures var t := Next(s, e);
            if e.DialClaim? && ChargesSlot(s.b, e.c, e.now)
            then SpendsFor(s.b.st, t.b.st, e.c, s.b.st.claims[e.c].slot) && |Spent(s.b.st, t.b.st)| <= MAX_MAILBOXES_PER_SLOT
            else Steady(s.b.st, t.b.st)
  {
    hide BudgetInv, StoreInv, TimeInv;
    var b := s.b;
    match e
    case NewMailbox(now, slot, id) => CreateIsSteady(b.st, slot, id, now);
    case NewClaim(now, c, slot, payload) =>
    case DialMailbox(now, id, sock) => DialIsSteady(b, id, sock, now);
    case HolderSays(now, sock, msg) =>
      HolderIsSteady(b, s.holders[sock].box, s.holders[sock].established, msg, now);
      hide MailboxMessage;
    case HolderGone(now, sock) =>
    case DialClaim(now, c, sock, handles) =>
      DialClaimSpends(b, c, sock, handles, now);
      hide AttachClaim;
    case ClaimantSays(now, sock, msg) =>
      ClaimantIsSteady(b, s.claimants[sock], msg, now);
      hide ClaimMessage;
    case ClaimantGone(now, sock, order) =>
      BurnAllIsSteady(b.st, s.claimants[sock], order, now);
      hide BurnAll;
    case Sweep(now, later) =>
  }

  lemma {:induction false} TotalSpentAppend(charges: seq<Charge>, x: Charge)
    ensures TotalSpent(charges + [x]) == TotalSpent(charges) + x.spent
  {
    if charges != [] {
      assert (charges + [x])[1..] == charges[1..] + [x];
      TotalSpentAppend(charges[1..], x);
    }
  }

  lemma ChargeAppend(charges: seq<Charge>, log: seq<RateLimit.Hit>, slot: Slot, at: int, spent: nat)
    requires ChargesOk(charges, log) && spent <= MAX_MAILBOXES_PER_SLOT
    ensures ChargesOk(charges + [Charge(slot, at, spent)], log + [RateLimit.Hit(SlotKey(slot), at)])
    ensures TotalSpent(charges + [Charge(slot, at, spent)]) == TotalSpent(charges) + spent
  {
    hide SlotKey;
    TotalSpentAppend(charges, Charge(slot, at, spent));
  }

  lemma ClaimedGrowsBySpent(s: Store, t: Store)
    requires forall id | id in s.boxes :: id in t.boxes && (s.boxes[id].claimedBy.Some? ==> t.boxes[id].claimedBy.Some?)
    requires forall id | id in t.boxes && id !in s.boxes :: t.boxes[id].claimedBy.None?
    ensures |Claimed(t)| == |Claimed(s)| + |Spent(s, t)|
  {
    assert Claimed(t) == Claimed(s) + Spent(s, t);
    assert Claimed(s) !! Spent(s, t);
  }

  /** A mailbox that was not there before is unclaimed and made now. */
  predicate AddsUnclaimed(s: Store, t: Store, now: int) {
    forall id | id in t.boxes && id !in s.boxes :: t.boxes[id].claimedBy.None? && t.boxes[id].createdAt == now
  }

  lemma CreatingAddsUnclaimed(st: Store, slot: Slot, id: Id, now: int)
    ensures AddsUnclaimed(st, CreateMailbox(st, slot, id, now).0, now)
  {
    hide Remove, LapsedOn;
    RemoveFrame(st, LapsedOn(st, slot, now));
  }

  lemma DialAddsUnclaimed(b: State, id: Id, sock: Sock, now: int)
    requires Inv(b) && id in b.st.boxes
    ensures AddsUnclaimed(b.st, AttachMailbox(b, id, sock, now).0.st, now)
  {
    hide StoreInv, GetMailbox, Deliver, Mailboxes.Attach;
    GetMailboxFacts(b.st, id, now);
  }

  lemma DialClaimAddsNothing(b: State, c: Id, sock: Sock, handles: seq<Id>, now: int)
    requires c in b.st.open ==> c in b.st.claims
    ensures AttachClaim(b, c, sock, handles, now).0.st.boxes.Keys == b.st.boxes.Keys
  {
    hide FanOut, LiveMailboxesForSlot, RateLimit.Take;
  }

  lemma GoingAddsNothing(b: State, id: Id, established: bool)
    requires id in b.st.boxes
    ensures MailboxClosed(b, id, established).st.boxes.Keys == b.st.boxes.Keys
  {
    hide Remove;
    RemoveFrame(b.st, {id});
  }

  lemma LeavingAddsNothing(b: State, c: Id, order: seq<Id>, now: int)
    requires Inv(b) && c in b.st.claims
    ensures ClaimClosed(b, c, order, now).st.boxes.Keys == b.st.boxes.Keys
  {
    hide BurnAll, StoreInv;
    BurnAllFacts(b.st, c, order, now);
  }

  lemma SweepAddsNothing(b: State, now: int, later: int)
    ensures SweepAll(b, now, later).st.boxes.Keys == b.st.boxes.Keys
  {
    hide Remove;
    RemoveFrame(b.st, set id | id in b.st.stored && Lapsed(b.st, id, now));
  }

  /** Records are only ever added unclaimed. */
  lemma NewRecordsAreUnclaimed(s: Sys, e: Event)
    requires SysInv(s) && Enabled(s, e)
    ensures AddsUnclaimed(s.b.st, Next(s, e).b.st, e.now)
  {
    assert Inv(s.b);
    InvKeepsSockets(s);
    hide BudgetInv, StoreInv, TimeInv, CreateMailbox, AttachMailbox, AttachClaim, MailboxMessage, MailboxClosed, ClaimMessage, ClaimClosed, SweepAll;
    var b := s.b;
    match e
    case NewMailbox(now, slot, id) => CreatingAddsUnclaimed(b.st, slot, id, now);
    case NewClaim(now, c, slot, payload) =>
    case DialMailbox(now, id, sock) => if id in b.st.boxes { DialAddsUnclaimed(b, id, sock, now); }
    case HolderSays(now, sock, msg) =>
      HolderReachesItsClaimOnly(b, s.holders[sock].box, s.holders[sock].established, msg, now, "", "");
    case HolderGone(now, sock) => GoingAddsNothing(b, s.holders[sock].box, s.holders[sock].established);
    case DialClaim(now, c, sock, handles) => DialClaimAddsNothing(b, c, sock, handles, now);
    case ClaimantSays(now, sock, msg) =>
      ClaimantReachesItsMailboxesOnly(b, s.claimants[sock], msg, now, "", "");
    case ClaimantGone(now, sock, order) => LeavingAddsNothing(b, s.claimants[sock], order, now);
    case Sweep(now, later) => SweepAddsNothing(b, now, later);
  }

  lemma NextKeepsBudget(s: Sys, e: Event)
    requires SysInv(s) && Enabled(s, e)
    ensures BudgetInv(Next(s, e))
  {
    assert BudgetInv(s) && SocketsOk(s);
    hide SysInv, SocketsOk, Enabled, Next, RateLimit.RunInv, Claimed, Spent, SpendsFor, Steady, ChargesSlot, ChargesOk;
    var t := Next(s, e);
    StepSpends(s, e);
    StepLimiter(s, e);
    StepClaimed(s, e);
    StepHistory(s, e);
    if e.DialClaim? && ChargesSlot(s.b, e.c, e.now) {
      ChargeAppend(s.charges, s.log, s.b.st.claims[e.c].slot, e.now, |Spent(s.b.st, t.b.st)|);
    }
  }

  lemma StepClaimed(s: Sys, e: Event)
    requires SysInv(s) && Enabled(s, e)
    ensures |Claimed(Next(s, e).b.st)| == |Claimed(s.b.st)| + |Spent(s.b.st, Next(s, e).b.st)|
    ensures !(e.DialClaim? && ChargesSlot(s.b, e.c, e.now)) ==> Spent(s.b.st, Next(s, e).b.st) == {}
  {
    assert SocketsOk(s);
    hide SysInv, SocketsOk, Next, ChargesSlot, Enabled, SpendsFor;
    StepSpends(s, e);
    StepFollows(s, e);
    NewRecordsAreUnclaimed(s, e);
    ClaimedGrowsBySpent(s.b.st, Next(s, e).b.st);
  }

  /** Only dialling a claim touches the slot budget. */
  lemma OthersLeaveBudget(s: Sys, e: Event)
    requires SysInv(s) && Enabled(s, e) && !e.DialClaim?
    ensures Next(s, e).b.slotLimit == s.b.slotLimit
  {
    hide BudgetInv, StoreInv, ClaimFor, GetMailbox, OwnedMailbox, BurnOwned, BurnAll, Remove, Deliver, Mailboxes.Attach;
  }

  lemma StepLimiter(s: Sys, e: Event)
    requires SysInv(s) && Enabled(s, e)
    ensures var t := Next(s, e); RateLimit.RunInv(RateLimit.Run(t.b.slotLimit, t.log, t.clock))
    ensures Next(s, e).b.slotLimit.limit == s.b.slotLimit.limit && Next(s, e).b.slotLimit.windowMs == s.b.slotLimit.windowMs
  {
    var b := s.b;
    LimiterWaits(b.slotLimit, s.log, s.clock, if e.Sweep? then e.later else e.now);
    StepHistory(s, e);
    if e.DialClaim? {
      DialClaimBudget(b, e.c, e.sock, e.handles, e.now);
      if GetClaim(b.st, e.c, e.now).1 && b.st.claims[e.c].mail.sink.None? {
        RateLimit.StepKeepsRunInv(RateLimit.Run(b.slotLimit, s.log, s.clock), RateLimit.TakeOp(SlotKey(b.st.claims[e.c].slot), e.now));
      }
      hide RateLimit.RunInv, RateLimit.Take, AttachClaim, GetClaim, Inv, SlotKey;
    } else {
      OthersLeaveBudget(s, e);
      hide RateLimit.RunInv, Next;
    }
  }

  /** The histories and the clock change as the step says. */
  lemma StepHistory(s: Sys, e: Event)
    requires SysInv(s) && Enabled(s, e)
    ensures var t := Next(s, e);
            && t.clock == (if e.Sweep? then e.later else e.now)
            && if e.DialClaim? && ChargesSlot(s.b, e.c, e.now)
               then t.log == s.log + [RateLimit.Hit(SlotKey(s.b.st.claims[e.c].slot), e.now)]
                    && t.charges == s.charges + [Charge(s.b.st.claims[e.c].slot, e.now, |Spent(s.b.st, t.b.st)|)]
               else t.log == s.log && t.charges == s.charges
  {
    hide AttachClaim, AttachMailbox, MailboxMessage, ClaimMessage, Spent, ChargesSlot;
  }

  lemma NextKeepsSockets(s: Sys, e: Event)
    requires SysInv(s) && Enabled(s, e)
    ensures SocketsOk(Next(s, e)) && TimeInv(Next(s, e).b.st, Next(s, e).clock)
  {
    assert SocketsOk(s) && TimeInv(s.b.st, s.clock) && s.clock <= e.now && (e.Sweep? ==> e.now <= e.later);
    hide SysInv, SocketsOk, TimeInv, Enabled, Next, ChargesSlot, Inv;
    StepHistory(s, e);
    StepTime(s, e);
    StepFollows(s, e);
    NextKeepsBroker(s, e);
    StepSockets(s, e);
    InvKeepsSockets(Next(s, e));
  }

  /** Records stay, keep their age, and once claimed keep their claim and handle. */
  predicate Follows(s: Store, t: Store) {
    && (forall id | id in s.boxes :: id in t.boxes && Settled(s.boxes[id], t.boxes[id]))
    && (forall c | c in s.claims :: c in t.claims)
  }

  predicate Settled(before: Box, after: Box) {
    && before.createdAt == after.createdAt && before.slot == after.slot
    && (before.claimedBy.Some? ==> after.claimedBy == before.claimedBy && after.peer == before.peer)
  }

  lemma SpendsFollows(s: Store, t: Store, c: Id, slot: Slot)
    requires SpendsFor(s, t, c, slot) || Steady(s, t)
    ensures Follows(s, t)
  {
  }

  lemma TimeGrows(s: Store, t: Store, clock: int, now: int, later: int)
    requires TimeInv(s, clock) && Follows(s, t) && clock <= now <= later
    requires forall id | id in t.boxes && id !in s.boxes :: t.boxes[id].claimedBy.None? && t.boxes[id].createdAt == now
    ensures TimeInv(t, later)
  {
  }

  lemma StepFollows(s: Sys, e: Event)
    requires SysInv(s) && Enabled(s, e)
    ensures Follows(s.b.st, Next(s, e).b.st)
  {
    assert SocketsOk(s);
    StepSpends(s, e);
    var c := if e.DialClaim? then e.c else "";
    hide SysInv, SocketsOk, Enabled, Next, ChargesSlot, SpendsFor, Steady, Spent, Follows;
    SpendsFollows(s.b.st, Next(s, e).b.st, c, if c in s.b.st.claims then s.b.st.claims[c].slot else "");
  }

  lemma StepTime(s: Sys, e: Event)
    requires SysInv(s) && Enabled(s, e)
    ensures TimeInv(Next(s, e).b.st, Next(s, e).clock)
  {
    assert SocketsOk(s) && TimeInv(s.b.st, s.clock) && s.clock <= e.now && (e.Sweep? ==> e.now <= e.later);
    hide SysInv, SocketsOk, Enabled, Next, ChargesSlot, TimeInv, Follows;
    StepHistory(s, e);
    StepFollows(s, e);
    NewRecordsAreUnclaimed(s, e);
    TimeGrows(s.b.st, Next(s, e).b.st, s.clock, e.now, Next(s, e).clock);
  }

  lemma StepSockets(s: Sys, e: Event)
    requires SysInv(s) && Enabled(s, e)
    ensures var t := Next(s, e);
            && (forall sock | sock in t.holders :: t.holders[sock].box in s.b.st.boxes)
            && (forall sock | sock in t.claimants :: t.claimants[sock] in s.b.st.claims)
  {
    hide BudgetInv, StoreInv, TimeInv, MailboxMessage, ClaimMessage, Engage, ChargeBudgets;
    InvKeepsSockets(s);
  }

  lemma NextKeepsInv(s: Sys, e: Event)
    requires SysInv(s) && Enabled(s, e)
    ensures SysInv(Next(s, e))
  {
    hide Next, Inv, SocketsOk, TimeInv, BudgetInv;
    NextKeepsBroker(s, e);
    NextKeepsSockets(s, e);
    NextKeepsBudget(s, e);
  }

  // ---------------------------------------------------------------------------
  // Whole runs
  // ---------------------------------------------------------------------------

  ghost predicate AllEnabled(s: Sys, es: seq<Event>)
    requires SysInv(s)
    decreases |es|
  {
    es == [] || (Enabled(s, es[0]) && (NextKeepsInv(s, es[0]); AllEnabled(Next(s, es[0]), es[1..])))
  }

  ghost function Exec(s: Sys, es: seq<Event>): Sys
    requires SysInv(s) && AllEnabled(s, es)
    decreases |es|
  {
    if es == [] then s
    else
      NextKeepsInv(s, es[0]);
      Exec(Next(s, es[0]), es[1..])
  }

  /** Every state a run passes through satisfies the invariant, and the slot budget's parameters never move. */
  lemma {:induction false} RunsKeepInv(s: Sys, es: seq<Event>)
    requires SysInv(s) && AllEnabled(s, es)
    ensures var r := Exec(s, es);
            SysInv(r) && r.b.slotLimit.limit == s.b.slotLimit.limit && r.b.slotLimit.windowMs == s.b.slotLimit.windowMs
    decreases |es|
  {
    assert SocketsOk(s);
    hide SysInv, SocketsOk, Next, Enabled;
    if es != [] {
      NextKeepsInv(s, es[0]);
      StepLimiter(s, es[0]);
      RunsKeepInv(Next(s, es[0]), es[1..]);
    }
  }

  lemma StartIsInvariant(ttl: int, perSlot: nat, overall: nat, windowMs: int, clock: int)
    ensures SysInv(Start(ttl, perSlot, overall, windowMs, clock))
  {
    RateLimit.FreshRunInv(perSlot, windowMs, clock);
    assert Claimed(NewStore(ttl)) == {};
  }

  lemma FollowsOn(s: Store, t: Store, u: Store)
    requires Follows(s, t) && Follows(t, u)
    ensures Follows(s, u)
  {
  }

  /** Main result: over every run a mailbox is claimed at most once and never un-claimed. Whatever
    * happens after the claim, its record keeps that claim and that handle. */
  lemma {:induction false} ClaimedOnceForever(s: Sys, es: seq<Event>)
    requires SysInv(s) && AllEnabled(s, es)
    ensures Follows(s.b.st, Exec(s, es).b.st)
    decreases |es|
  {
    if es != [] {
      hide Follows;
      NextKeepsInv(s, es[0]);
      StepFollows(s, es[0]);
      ClaimedOnceForever(Next(s, es[0]), es[1..]);
      FollowsOn(s.b.st, Next(s, es[0]).b.st, Exec(s, es).b.st);
    }
  }

  /** Main result: along every run, at most one `pair:peer-share` ever reaches or waits for a
    * mailbox, and none before it is claimed. */
  lemma OneShareEver(s: Sys, es: seq<Event>, id: Id)
    requires SysInv(s) && AllEnabled(s, es)
    ensures var t := Exec(s, es).b.st;
            id in t.boxes ==> Shares(t.boxes[id].mail) <= if t.boxes[id].claimedBy.Some? then 1 else 0
  {
    hide Exec, Shares, AllEnabled;
    RunsKeepInv(s, es);
    var r := Exec(s, es);
    if id in r.b.st.boxes {
      assert BoxOk(r.b.st, id);
    }
  }

  /** Mailboxes spent through one slot, and dials that slot's budget paid for, in a window of time. */
  function SpentIn(charges: seq<Charge>, slot: Slot, lo: int, hi: int): (nat, nat) {
    if charges == [] then (0, 0)
    else
      var (spent, dials) := SpentIn(charges[1..], slot, lo, hi);
      if charges[0].slot == slot && lo < charges[0].at <= hi then (spent + charges[0].spent, dials + 1) else (spent, dials)
  }

  lemma {:induction false} SpentWithinTakes(charges: seq<Charge>, log: seq<RateLimit.Hit>, slot: Slot, lo: int, hi: int)
    requires ChargesOk(charges, log)
    ensures var takes := RateLimit.Count(RateLimit.TimesOf(log, SlotKey(slot)), lo, hi);
            SpentIn(charges, slot, lo, hi).1 <= takes && SpentIn(charges, slot, lo, hi).0 <= MAX_MAILBOXES_PER_SLOT * takes
  {
    if charges != [] {
      hide SlotKey;
      assert ChargesOk(charges[1..], log[1..]) by {
        assert forall i | 0 <= i < |charges[1..]| :: charges[1..][i] == charges[i + 1] && log[1..][i] == log[i + 1];
      }
      SpentWithinTakes(charges[1..], log[1..], slot, lo, hi);
    }
  }

  lemma BudgetHolds(r: Sys, slot: Slot, hi: int)
    requires BudgetInv(r)
    ensures var (spent, dials) := SpentIn(r.charges, slot, hi - r.b.slotLimit.windowMs, hi);
            dials <= r.b.slotLimit.limit && spent <= MAX_MAILBOXES_PER_SLOT * r.b.slotLimit.limit
  {
    hide SlotKey, ChargesOk, SpentIn;
    SpentWithinTakes(r.charges, r.log, slot, hi - r.b.slotLimit.windowMs, hi);
    assert RateLimit.WindowOk(RateLimit.Run(r.b.slotLimit, r.log, r.clock), SlotKey(slot), hi);
  }

  /** Main result: along every run, in any window of the limiter's length, at most `limit` claims
    * attach through one slot, and together they burn at most `limit` times the per-slot mailbox cap. */
  lemma GuessingBudget(s: Sys, es: seq<Event>, slot: Slot, hi: int)
    requires SysInv(s) && AllEnabled(s, es)
    ensures var (spent, dials) := SpentIn(Exec(s, es).charges, slot, hi - s.b.slotLimit.windowMs, hi);
            dials <= s.b.slotLimit.limit && spent <= MAX_MAILBOXES_PER_SLOT * s.b.slotLimit.limit
  {
    hide Exec, AllEnabled, BudgetInv, SpentIn;
    RunsKeepInv(s, es);
    BudgetHolds(Exec(s, es), slot, hi);
  }

  /** The charges account for every claimed mailbox: none is ever burned except by a dial its slot's
    * budget granted, on that slot, and the totals agree. */
  lemma EverySpendIsCharged(s: Sys, e: Event)
    requires SysInv(s) && Enabled(s, e)
    ensures var t := Next(s, e);
            && TotalSpent(t.charges) == |Claimed(t.b.st)|
            && (Spent(s.b.st, t.b.st) != {} ==>
                 && e.DialClaim? && ChargesSlot(s.b, e.c, e.now)
                 && t.charges == s.charges + [Charge(s.b.st.claims[e.c].slot, e.now, |Spent(s.b.st, t.b.st)|)]
                 && forall id | id in Spent(s.b.st, t.b.st) :: s.b.st.boxes[id].slot == s.b.st.claims[e.c].slot && t.b.st.boxes[id].claimedBy == Some(e.c))
  {
    assert SocketsOk(s);
    NextKeepsBudget(s, e);
    StepClaimed(s, e);
    StepHistory(s, e);
    StepSpends(s, e);
    hide Next, SysInv, SocketsOk, Enabled, ChargesSlot, Claimed;
  }
}
