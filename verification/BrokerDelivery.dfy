/** What each pairing handler must bring about: who is offered, told, routed and burned. */
module BrokerDelivery {
  import opened Options
  import opened Mailboxes
  import opened BrokerState
  import opened BrokerProofs
  import RateLimit

  // ---------------------------------------------------------------------------
  // Mail
  // ---------------------------------------------------------------------------

  function Messages(sent: seq<Sent>): seq<ServerMsg> {
    if sent == [] then [] else [sent[0].msg] + Messages(sent[1..])
  }

  /** Everything a record was ever told, in order: what its sinks were handed, then what is still buffered. */
  function Heard(m: Mail): seq<ServerMsg> {
    Messages(m.sent) + m.pending
  }

  lemma {:induction false} MessagesJoin(a: seq<Sent>, b: seq<Sent>)
    ensures Messages(a + b) == Messages(a) + Messages(b)
  {
    if a == [] {
      assert a + b == b;
    } else {
      assert (a + b)[1..] == a[1..] + b;
      MessagesJoin(a[1..], b);
    }
  }

  lemma {:induction false} StampedMessages(sock: Sock, msgs: seq<ServerMsg>)
    ensures Messages(Stamp(sock, msgs)) == msgs && |Stamp(sock, msgs)| == |msgs|
    ensures forall i | 0 <= i < |msgs| :: Stamp(sock, msgs)[i].sock == sock
  {
    if msgs != [] { StampedMessages(sock, msgs[1..]); }
  }

  /** Main result: a message is handed to the sink at once, or buffered, or, with sixteen waiting, lost; and a sink that
    * attaches is handed everything buffered, in order, once, and nothing else. */
  lemma MailIsHeard(m: Mail, msg: ServerMsg, sock: Sock)
    requires m.sink.Some? ==> m.pending == []
    ensures var t := Deliver(m, msg);
            && Heard(t) == Heard(m) + (if m.sink.Some? || |m.pending| < 16 then [msg] else [])
            && t.sink == m.sink && (m.sink.None? ==> t.sent == m.sent) && (m.sink.Some? ==> t.pending == [] && m.sent <= t.sent)
            && (m.sink.Some? ==> |t.sent| == |m.sent| + 1 && t.sent[|m.sent|].sock == m.sink.value)
    ensures var t := Mailboxes.Attach(m, sock);
            && t.sink == Some(sock) && t.pending == [] && Heard(t) == Heard(m) && m.sent <= t.sent
            && forall i | |m.sent| <= i < |t.sent| :: t.sent[i].sock == sock
  {
    StampedMessages(sock, m.pending);
    MessagesJoin(m.sent, Stamp(sock, m.pending));
    if m.sink.Some? { MessagesJoin(m.sent, [Sent(m.sink.value, msg)]); }
    hide Stamp;
  }

  // ---------------------------------------------------------------------------
  // Dialling a claim
  // ---------------------------------------------------------------------------

  /** A mailbox that is stored on the slot, has not run out, and was never claimed. */
  predicate Waiting(s: Store, slot: Slot, now: int, id: Id) {
    id in s.stored && id in s.boxes && s.boxes[id].slot == slot && now < s.boxes[id].expiresAt && s.boxes[id].claimedBy.None?
  }

  /** The claim is stored, has not run out, and nobody has dialled it. */
  predicate Dialable(b: State, c: Id, now: int) {
    c in b.st.open && c in b.st.claims && now < b.st.claims[c].expiresAt && b.st.claims[c].mail.sink.None?
  }

  /** Both guessing budgets have room. */
  predicate BothGrant(b: State, slot: Slot, now: int) {
    RateLimit.Take(b.slotLimit, SlotKey(slot), now).1 && RateLimit.Take(b.globalLimit, GLOBAL_KEY, now).1
  }

  /** The mailbox, spent on this claim under this handle, with the claim's share delivered to it. */
  function Spoken(box: Box, c: Id, peer: Id, payload: Payload): Box {
    box.(claimedBy := Some(c), peer := Some(peer), mail := Deliver(box.mail, PeerShare(peer, payload.share, payload.ad, payload.sid)))
  }

  predicate BoxesOffered(s: Store, t: Store, c: Id, ids: seq<Id>, handles: seq<Id>, payload: Payload)
    requires |ids| <= |handles| && forall id | id in ids :: id in s.boxes
  {
    && t.boxes.Keys == s.boxes.Keys
    && (forall x | x in s.boxes && x !in ids :: t.boxes[x] == s.boxes[x])
    && (forall i | 0 <= i < |ids| :: t.boxes[ids[i]] == Spoken(s.boxes[ids[i]], c, handles[i], payload))
  }

  predicate RoutesAdded(s: Store, t: Store, c: Id, ids: seq<Id>, handles: seq<Id>)
    requires |ids| <= |handles| && c in s.claims && c in t.claims
  {
    && (forall i | 0 <= i < |ids| :: handles[i] in t.claims[c].peers && t.claims[c].peers[handles[i]] == ids[i])
    && (forall p | p in s.claims[c].peers && p !in handles :: p in t.claims[c].peers && t.claims[c].peers[p] == s.claims[c].peers[p])
    && (ids == [] ==> t.claims[c].peers == s.claims[c].peers)
  }

  /** Every listed mailbox was offered under the handle in its place, and nothing else changed. */
  predicate Offered(s: Store, t: Store, c: Id, ids: seq<Id>, handles: seq<Id>, payload: Payload)
    requires |ids| <= |handles| && c in s.claims && c in t.claims && forall id | id in ids :: id in s.boxes
  {
    && t.claims.Keys == s.claims.Keys && t.open == s.open && t.stored == s.stored && t.slots == s.slots && t.ttl == s.ttl
    && t.claims[c] == s.claims[c].(peers := t.claims[c].peers)
    && (forall d | d in s.claims && d != c :: t.claims[d] == s.claims[d])
    && BoxesOffered(s, t, c, ids, handles, payload)
    && RoutesAdded(s, t, c, ids, handles)
  }

  lemma {:induction false} FanOutOffers(s: Store, c: Id, ids: seq<Id>, handles: seq<Id>, payload: Payload)
    requires c in s.claims && NoDup(ids) && NoDup(handles) && |ids| <= |handles|
    requires forall id | id in ids :: id in s.boxes && s.boxes[id].claimedBy.None?
    ensures Offered(s, FanOut(s, c, ids, handles, payload), c, ids, handles, payload)
    decreases |ids|
  {
    hide Deliver, OfferOne, Offered;
    if ids == [] {
      assert Offered(s, s, c, ids, handles, payload) by { NothingOffered(s, c, handles, payload); }
    } else {
      var t := OfferOne(s, c, ids[0], handles[0], payload);
      OfferOneFrame(s, c, ids[0], handles[0], payload);
      assert NoDup(ids[1..]) && NoDup(handles[1..]) && ids[0] !in ids[1..];
      FanOutOffers(t, c, ids[1..], handles[1..], payload);
      var u := FanOut(t, c, ids[1..], handles[1..], payload);
      OfferedJoins(s, t, u, c, ids, handles, payload);
    }
  }

  lemma NothingOffered(s: Store, c: Id, handles: seq<Id>, payload: Payload)
    requires c in s.claims
    ensures Offered(s, s, c, [], handles, payload)
  {
  }

  lemma BoxesJoin(s: Store, t: Store, u: Store, c: Id, ids: seq<Id>, handles: seq<Id>, payload: Payload)
    requires ids != [] && |ids| <= |handles| && NoDup(ids)
    requires (forall id | id in ids :: id in s.boxes) && (forall id | id in ids[1..] :: id in t.boxes)
    requires t.boxes == s.boxes[ids[0] := Spoken(s.boxes[ids[0]], c, handles[0], payload)]
    requires BoxesOffered(t, u, c, ids[1..], handles[1..], payload)
    ensures BoxesOffered(s, u, c, ids, handles, payload)
  {
    hide Spoken;
    var rest := ids[1..];
    assert forall x :: x in ids <==> x == ids[0] || x in rest;
    assert ids[0] !in rest;
    forall i | 0 <= i < |ids| ensures u.boxes[ids[i]] == Spoken(s.boxes[ids[i]], c, handles[i], payload) {
      if i > 0 { assert ids[i] == rest[i - 1] && handles[i] == handles[1..][i - 1] && ids[i] != ids[0]; }
    }
  }

  lemma RoutesJoin(s: Store, t: Store, u: Store, c: Id, ids: seq<Id>, handles: seq<Id>)
    requires c in s.claims && c in t.claims && c in u.claims && ids != [] && |ids| <= |handles| && NoDup(handles)
    requires t.claims[c].peers == s.claims[c].peers[handles[0] := ids[0]]
    requires RoutesAdded(t, u, c, ids[1..], handles[1..])
    ensures RoutesAdded(s, u, c, ids, handles)
  {
    var more := handles[1..];
    assert forall x :: x in handles <==> x == handles[0] || x in more;
    assert handles[0] !in more;
    forall i | 0 <= i < |ids| ensures handles[i] in u.claims[c].peers && u.claims[c].peers[handles[i]] == ids[i] {
      if i > 0 { assert ids[i] == ids[1..][i - 1] && handles[i] == more[i - 1]; }
    }
  }

  /** The first was offered, then the rest. */
  lemma OfferedJoins(s: Store, t: Store, u: Store, c: Id, ids: seq<Id>, handles: seq<Id>, payload: Payload)
    requires c in s.claims && c in t.claims && c in u.claims && ids != [] && |ids| <= |handles| && NoDup(ids) && NoDup(handles)
    requires (forall id | id in ids :: id in s.boxes && s.boxes[id].claimedBy.None?) && (forall id | id in ids[1..] :: id in t.boxes)
    requires t.boxes == s.boxes[ids[0] := Spoken(s.boxes[ids[0]], c, handles[0], payload)]
    requires t.claims == s.claims[c := s.claims[c].(peers := s.claims[c].peers[handles[0] := ids[0]])]
    requires t.open == s.open && t.stored == s.stored && t.slots == s.slots && t.ttl == s.ttl
    requires Offered(t, u, c, ids[1..], handles[1..], payload)
    ensures Offered(s, u, c, ids, handles, payload)
  {
    hide Spoken, BoxesOffered, RoutesAdded;
    BoxesJoin(s, t, u, c, ids, handles, payload);
    RoutesJoin(s, t, u, c, ids, handles);
  }

  /** The live mailboxes of a slot are exactly those waiting on it. */
  lemma LiveIsWaiting(s: Store, slot: Slot, now: int, id: Id)
    requires StoreInv(s)
    ensures id in LiveMailboxesForSlot(s, slot, now).1 <==> Waiting(s, slot, now, id)
  {
    var dead := LapsedOn(s, slot, now);
    var p := Remove(s, dead);
    UnclaimedIn(p, SlotIds(p, slot));
    if slot in s.slots {
      WithoutIs(s.slots[slot], dead);
      assert SlotOk(s, slot);
    }
    if Waiting(s, slot, now, id) {
      assert IndexOk(s, id);
      UnclaimedHas(p, SlotIds(p, slot), id);
    }
  }

  lemma {:induction false} UnclaimedHas(s: Store, ids: seq<Id>, id: Id)
    requires id in ids && id in s.boxes && s.boxes[id].claimedBy.None?
    ensures id in Unclaimed(s, ids)
  {
    if ids[0] != id { UnclaimedHas(s, ids[1..], id); }
  }

  /** What the dial of a live claim does to the store, once charged. */
  lemma EngageOffers(b: State, c: Id, sock: Sock, handles: seq<Id>, now: int)
    requires Inv(b) && TimeInv(b.st, now) && c in b.payloads && c in b.st.claims && b.st.claims[c].mail.sink.None?
    requires NoDup(handles) && |handles| == MAX_MAILBOXES_PER_SLOT
    ensures var s := Extended(b.st, c, sock, now);
            var (p, ids) := LiveMailboxesForSlot(s, b.st.claims[c].slot, now);
            && RemoveOnly(s, p) && |ids| <= |handles| && c in p.claims && (forall id | id in ids :: id in p.boxes)
            && s.boxes == b.st.boxes && s.claims[c].peers == map[] && s.stored == b.st.stored && StoreInv(s)
            && s.open == b.st.open && s.claims[c].mail == Mailboxes.Attach(b.st.claims[c].mail, sock) && s.claims[c].expiresAt == now + b.st.ttl
            && (forall d | d in s.claims && d != c :: s.claims[d] == b.st.claims[d])
            && Offered(p, Engage(b, c, sock, handles, now).st, c, ids, handles, b.payloads[c])
  {
    var s := Extended(b.st, c, sock, now);
    ReadyKeepsInv(b, c, sock, now);
    LiveFacts(s, b.st.claims[c].slot, now);
    var (p, ids) := LiveMailboxesForSlot(s, b.st.claims[c].slot, now);
    UnclaimedIn(p, SlotIds(p, b.st.claims[c].slot));
    hide StoreInv, FanOut, Offered, SlotIds;
    FanOutOffers(p, c, ids, handles, b.payloads[c]);
  }

  lemma BudgetsGrant(b: State, slot: Slot, now: int)
    ensures var (t, ok) := ChargeBudgets(b, slot, now);
            t.st == b.st && t.payloads == b.payloads && (ok <==> BothGrant(b, slot, now))
  {
  }

  /** What a granted dial leaves behind: every waiting mailbox spent on the claim, and nothing else touched. */
  ghost predicate Dialled(b: State, t: State, c: Id, sock: Sock, handles: seq<Id>, now: int)
    requires c in b.st.claims && c in b.payloads
  {
    var slot := b.st.claims[c].slot;
    && t.st.boxes.Keys == b.st.boxes.Keys && c in t.st.claims
    && (forall id | id in b.st.boxes && !Waiting(b.st, slot, now, id) :: t.st.boxes[id] == b.st.boxes[id])
    && (forall id | Waiting(b.st, slot, now, id) ::
         && t.st.boxes[id].peer.Some? && t.st.boxes[id].peer.value in handles
         && t.st.boxes[id] == Spoken(b.st.boxes[id], c, t.st.boxes[id].peer.value, b.payloads[c])
         && t.st.boxes[id].peer.value in t.st.claims[c].peers && t.st.claims[c].peers[t.st.boxes[id].peer.value] == id
         && id in t.st.stored)
  }

  /** Main result: dialling a live claim with room in both budgets spends every mailbox waiting on its slot on it,
    * routes each under a handle of its own, and delivers the claim's share to it. The socket is attached if and
    * only if there was one; otherwise it is told its peer is gone, and the claim is no more. */
  lemma DialReachesEveryWaiting(b: State, c: Id, sock: Sock, handles: seq<Id>, now: int)
    requires Inv(b) && TimeInv(b.st, now) && NoDup(handles) && |handles| == MAX_MAILBOXES_PER_SLOT
    requires Dialable(b, c, now) && BothGrant(b, b.st.claims[c].slot, now)
    ensures var (t, outcome) := AttachClaim(b, c, sock, handles, now);
            && Dialled(b, t, c, sock, handles, now)
            && (outcome.Attached? <==> exists id :: Waiting(b.st, b.st.claims[c].slot, now, id))
            && (outcome.Attached? ==>
                  && c in t.st.open && c in t.payloads
                  && t.st.claims[c].mail == Mailboxes.Attach(b.st.claims[c].mail, sock) && t.st.claims[c].expiresAt == now + b.st.ttl)
            && (!outcome.Attached? ==> outcome == Rejected(Some(Failed(None, PeerGone))) && c !in t.st.open && c !in t.payloads)
  {
    var slot := b.st.claims[c].slot;
    var (charged, ok) := ChargeBudgets(b, slot, now);
    BudgetsGrant(b, slot, now);
    EngageOffers(charged, c, sock, handles, now);
    var s := Extended(b.st, c, sock, now);
    var (p, ids) := LiveMailboxesForSlot(s, slot, now);
    var e := Engage(charged, c, sock, handles, now);
    hide StoreInv, LiveMailboxesForSlot, Engage, ChargeBudgets, Extended, Spoken, Deliver;
    forall id ensures id in ids <==> Waiting(b.st, slot, now, id) {
      LiveIsWaiting(s, slot, now, id);
    }
    OfferedMeansDialled(b, s, p, e, c, sock, ids, handles, now);
    PeersIffOffered(p, e.st, c, ids, handles, b.payloads[c]);
    hide Offered;
    if ids != [] { assert Waiting(b.st, slot, now, ids[0]); }
    assert AttachClaim(b, c, sock, handles, now) == if e.st.claims[c].peers == map[] then (DropClaim(e, c), Rejected(Some(Failed(None, PeerGone)))) else (e, Attached);
  }

  lemma PeersIffOffered(p: Store, t: Store, c: Id, ids: seq<Id>, handles: seq<Id>, payload: Payload)
    requires |ids| <= |handles| && c in p.claims && c in t.claims && (forall id | id in ids :: id in p.boxes)
    requires Offered(p, t, c, ids, handles, payload) && p.claims[c].peers == map[]
    ensures t.claims[c].peers == map[] <==> ids == []
    ensures t.open == p.open && t.claims[c].mail == p.claims[c].mail && t.claims[c].expiresAt == p.claims[c].expiresAt
  {
    if ids != [] { assert handles[0] in t.claims[c].peers; }
  }

  lemma OfferedMeansDialled(b: State, s: Store, p: Store, e: State, c: Id, sock: Sock, ids: seq<Id>, handles: seq<Id>, now: int)
    requires c in b.st.claims && c in b.payloads && s.boxes == b.st.boxes && s.stored == b.st.stored && RemoveOnly(s, p)
    requires |ids| <= |handles| && c in p.claims && c in e.st.claims && (forall id | id in ids :: id in p.boxes)
    requires forall id :: id in ids <==> Waiting(b.st, b.st.claims[c].slot, now, id)
    requires forall id | id in ids :: id in p.stored
    requires Offered(p, e.st, c, ids, handles, b.payloads[c])
    ensures Dialled(b, e, c, sock, handles, now) && Dialled(b, DropClaim(e, c), c, sock, handles, now)
  {
    hide Deliver, Waiting;
    forall id | id in ids
      ensures e.st.boxes[id].peer.Some? && e.st.boxes[id].peer.value in handles
      ensures e.st.boxes[id] == Spoken(b.st.boxes[id], c, e.st.boxes[id].peer.value, b.payloads[c])
      ensures e.st.boxes[id].peer.value in e.st.claims[c].peers && e.st.claims[c].peers[e.st.boxes[id].peer.value] == id
    {
      var i :| 0 <= i < |ids| && ids[i] == id;
      assert e.st.boxes[ids[i]] == Spoken(p.boxes[ids[i]], c, handles[i], b.payloads[c]);
    }
  }

  /** A dial that is not granted spends nothing: a claim that is gone, one somebody dialled, one over budget. */
  lemma DialRefused(b: State, c: Id, sock: Sock, handles: seq<Id>, now: int)
    requires Inv(b) && (!Dialable(b, c, now) || !BothGrant(b, b.st.claims[c].slot, now))
    ensures c in b.st.open ==> c in b.st.claims
    ensures var (t, outcome) := AttachClaim(b, c, sock, handles, now);
            && t.st.boxes == b.st.boxes && t.st.claims == b.st.claims && t.st.stored == b.st.stored
            && (c !in b.st.open || b.st.claims[c].expiresAt <= now ==> outcome == Rejected(Some(Failed(None, Expired))) && c !in t.st.open)
            && (c in b.st.open && now < b.st.claims[c].expiresAt && b.st.claims[c].mail.sink.Some? ==> outcome == Rejected(None) && t == b)
            && (Dialable(b, c, now) ==> outcome == Rejected(Some(Failed(None, RateLimited))) && c !in t.st.open && c !in t.payloads)
  {
    GetClaimFacts(b.st, c, now);
    if c in b.st.claims { BudgetsGrant(b, b.st.claims[c].slot, now); }
    hide StoreInv, Engage, ChargeBudgets;
  }

  // ---------------------------------------------------------------------------
  // The store
  // ---------------------------------------------------------------------------

  /** Stored on the slot with time left. */
  predicate Standing(s: Store, slot: Slot, now: int, id: Id) {
    id in s.stored && id in s.boxes && s.boxes[id].slot == slot && now < s.boxes[id].expiresAt
  }

  /** The mailboxes of a slot that have time left. */
  function OnSlot(s: Store, slot: Slot, now: int): set<Id> {
    set id | id in s.stored && Standing(s, slot, now, id)
  }

  /** Main result: a mailbox is made exactly when fewer than two with time left stand on its slot and fewer than ten thousand
    * are stored besides the slot's expired ones; it is new, unclaimed and on its slot, and only expired ones are forgotten. */
  lemma MailboxIsMadeIffRoom(s: Store, slot: Slot, id: Id, now: int)
    requires StoreInv(s) && id !in s.boxes
    ensures var (t, made) := CreateMailbox(s, slot, id, now);
            && (made <==> |OnSlot(s, slot, now)| < 2 && |s.stored - LapsedOn(s, slot, now)| < 10_000)
            && (made ==> id in t.stored && id in t.boxes && t.boxes == s.boxes[id := Box(id, slot, now, now + s.ttl, None, None, NO_MAIL)])
            && (!made ==> t.boxes == s.boxes)
            && (forall x | x in s.stored && now < s.boxes[x].expiresAt :: x in t.stored)
            && t.claims == s.claims && t.open == s.open
  {
    var dead := LapsedOn(s, slot, now);
    var p := Remove(s, dead);
    RemoveFrame(s, dead);
    SlotIsItsStanding(s, slot, now);
    forall x | x in s.stored ensures x in s.boxes { assert IndexOk(s, x); }
    hide StoreInv, Remove;
  }

  lemma SlotIsItsStanding(s: Store, slot: Slot, now: int)
    requires StoreInv(s)
    ensures |SlotIds(Remove(s, LapsedOn(s, slot, now)), slot)| == |OnSlot(s, slot, now)|
  {
    var dead := LapsedOn(s, slot, now);
    var p := Remove(s, dead);
    RemoveKeepsInv(s, dead);
    RemoveFrame(s, dead);
    var ids := SlotIds(p, slot);
    if slot in s.slots { WithoutIs(s.slots[slot], dead); }
    if slot in p.slots { assert SlotOk(p, slot); }
    forall x ensures x in ids <==> x in OnSlot(s, slot, now) {
      if slot in s.slots { assert SlotOk(s, slot); }
      if x in s.stored { assert IndexOk(s, x); }
      if slot in s.slots && x in s.slots[slot] {
        var i :| 0 <= i < |s.slots[slot]| && s.slots[slot][i] == x;
      }
    }
    hide StoreInv, Remove, OnSlot;
    NoDupSize(ids);
    assert (set x | x in ids) == OnSlot(s, slot, now);
  }

  lemma {:induction false} NoDupSize(ids: seq<Id>)
    requires NoDup(ids)
    ensures |set x | x in ids| == |ids|
  {
    if ids != [] {
      NoDupSize(ids[1..]);
      assert ids[0] !in ids[1..];
      assert (set x | x in ids) == {ids[0]} + set x | x in ids[1..];
    } else {
      assert (set x | x in ids) == {};
    }
  }

  /** A new claim is open for fifteen seconds, dialled by nobody, with its payload beside it. */
  lemma ClaimIsMade(b: State, c: Id, slot: Slot, payload: Payload, now: int)
    ensures var t := PairClaim(b, c, slot, payload, now);
            && t.st.open == b.st.open + {c} && t.payloads == b.payloads[c := payload] && t.st.boxes == b.st.boxes && t.st.stored == b.st.stored
            && t.st.claims == b.st.claims[c := Claim(c, slot, now, now + 15_000, Mail(None, [], []), map[])]
  {
  }

  /** Main result: a sweep forgets exactly the mailboxes that have run out by its first clock reading and the claims that
    * have by one of its two, and keeps exactly the payloads of the claims it leaves. */
  lemma SweepForgetsExactlyTheExpired(b: State, now: int, later: int)
    requires Inv(b) && now <= later
    ensures var t := SweepAll(b, now, later);
            && t.st.boxes == b.st.boxes && t.st.claims == b.st.claims
            && (forall id :: id in t.st.stored <==> id in b.st.stored && now < b.st.boxes[id].expiresAt)
            && (forall c :: c in t.st.open <==> c in b.st.open && later < b.st.claims[c].expiresAt)
            && t.payloads.Keys == t.st.open && forall c | c in t.payloads :: t.payloads[c] == b.payloads[c]
  {
    var dead := set id | id in b.st.stored && Lapsed(b.st, id, now);
    RemoveFrame(b.st, dead);
    SweepAllKeepsInv(b, now, later);
    forall x | x in b.st.stored ensures x in b.st.boxes { assert IndexOk(b.st, x); }
    hide StoreInv, Remove;
  }

  // ---------------------------------------------------------------------------
  // A holder's frames
  // ---------------------------------------------------------------------------

  /** Mailbox and claim name each other under this handle, and the claim has not run out. */
  predicate Linked(b: State, id: Id, c: Id, peer: Id, now: int) {
    && id in b.st.boxes && b.st.boxes[id].claimedBy == Some(c) && b.st.boxes[id].peer == Some(peer)
    && c in b.st.open && c in b.st.claims && now < b.st.claims[c].expiresAt
    && peer in b.st.claims[c].peers && b.st.claims[c].peers[peer] == id
  }

  /** The claim's mail grew by this message, and nothing about any other record changed. */
  predicate ClaimTold(b: State, t: State, c: Id, msg: ServerMsg)
    requires c in b.st.claims
  {
    && t.st.boxes == b.st.boxes && t.st.claims.Keys == b.st.claims.Keys && t.st.open == b.st.open
    && t.st.claims[c].mail == Deliver(b.st.claims[c].mail, msg)
    && forall d | d in b.st.claims && d != c :: t.st.claims[d] == b.st.claims[d]
  }

  /** Main result: with its route alive, every frame a holder sends under its own handle is delivered to the claim, as
    * the message it stands for; the mailbox outlives a share and a confirm and goes with an establish or a close; a
    * frame under another handle goes nowhere and closes the socket. */
  lemma HolderFramesAreDelivered(b: State, id: Id, c: Id, peer: Id, established: bool, msg: ClientMsg, now: int)
    requires Inv(b) && Linked(b, id, c, peer, now)
    ensures var (t, est, closed) := MailboxMessage(b, id, established, msg, now);
            match msg
            case Malformed => t == b && est == established && closed
            case Close(about) =>
              && ClaimTold(b, t, c, Failed(Some(peer), if about.Some? then ConfirmationFailed else PeerGone))
              && t.st.stored == b.st.stored - {id} && est == established && closed
            case Share(p, share, ad) =>
              if p != peer then t == b && est == established && closed
              else ClaimTold(b, t, c, PeerShare(peer, share, ad, SidFor(b, c))) && t.st.stored == b.st.stored && est == established && !closed
            case Confirm(p, tag) =>
              if p != peer then t == b && est == established && closed
              else ClaimTold(b, t, c, PeerConfirm(peer, tag)) && t.st.stored == b.st.stored && est && !closed
            case Establish(p, sealed) =>
              if p != peer then t == b && est == established && closed
              else
                && ClaimTold(b, t, c, Established(peer, sealed)) && t.st.stored == b.st.stored - {id} && est && !closed
                && t.st.claims[c].peers == b.st.claims[c].peers - {peer}
  {
    hide StoreInv, Deliver, SidFor, Remove, ToClaim;
    assert ClaimFor(b.st, id, now) == (b.st, Some(c));
    var m := HolderRelay(b, id, c, msg);
    ToClaimFrame(b.st, c, m);
    RemoveFrame(ToClaim(b.st, c, m), {id});
  }

  /** With no route, a frame under its own handle tells the holder its peer is gone, and a close still takes the mailbox. */
  lemma HolderWithoutRoute(b: State, id: Id, peer: Id, established: bool, msg: ClientMsg, now: int)
    requires Inv(b) && id in b.st.boxes && b.st.boxes[id].peer == Some(peer) && forall c :: !Linked(b, id, c, peer, now)
    ensures var (t, est, closed) := MailboxMessage(b, id, established, msg, now);
            && t.st.claims == b.st.claims && est == established
            && (msg.Close? ==> t.st.stored == b.st.stored - {id} && t.st.boxes == b.st.boxes && closed)
            && ((msg.Share? || msg.Confirm? || msg.Establish?) && msg.peer == peer ==>
                  && !closed && t.st.stored == b.st.stored
                  && t.st.boxes == b.st.boxes[id := b.st.boxes[id].(mail := Deliver(b.st.boxes[id].mail, Failed(Some(peer), PeerGone)))])
  {
    assert ClaimFor(b.st, id, now).1.None? by {
      var oc := ClaimFor(b.st, id, now).1;
      ClaimForFacts(b.st, id, now);
      if oc.Some? { GetClaimFacts(b.st, oc.value, now); }
      assert oc.Some? ==> Linked(b, id, oc.value, peer, now);
    }
    ClaimForFacts(b.st, id, now);
    ClaimForStored(b.st, id, now);
    hide StoreInv, Deliver, SidFor, ClaimFor, Remove;
    RemoveFrame(ClaimFor(b.st, id, now).0, {id});
  }

  lemma ClaimForStored(s: Store, id: Id, now: int)
    requires id in s.boxes
    ensures ClaimFor(s, id, now).0.stored == s.stored && ClaimFor(s, id, now).0.boxes == s.boxes && ClaimFor(s, id, now).0.claims == s.claims
  {
  }

  /** A holder that goes without its last word takes its mailbox with it; after its last word it only goes quiet. */
  lemma HolderGoes(b: State, id: Id, established: bool)
    requires id in b.st.boxes
    ensures var t := MailboxClosed(b, id, established).st;
            && t.claims == b.st.claims && t.open == b.st.open
            && (!established ==> t.stored == b.st.stored - {id} && t.boxes == b.st.boxes)
            && (established ==> t.stored == b.st.stored && t.boxes == b.st.boxes[id := b.st.boxes[id].(mail := b.st.boxes[id].mail.(sink := None))])
  {
    RemoveFrame(b.st, {id});
  }

  /** A holder that dials a stored mailbox nobody holds gets what was buffered, then the ready message. */
  lemma HolderArrives(b: State, id: Id, sock: Sock, now: int)
    requires Inv(b)
    ensures id in b.st.stored ==> id in b.st.boxes
    ensures var (t, outcome) := AttachMailbox(b, id, sock, now);
            var live := id in b.st.stored && now < b.st.boxes[id].expiresAt;
            && (!live ==> outcome == Rejected(Some(Failed(None, Expired))) && t.st.boxes == b.st.boxes && id !in t.st.stored)
            && (live && b.st.boxes[id].mail.sink.Some? ==> outcome == Rejected(None) && t == b)
            && (live && b.st.boxes[id].mail.sink.None? ==>
                  && outcome == Attached && t.st.stored == b.st.stored && t.st.claims == b.st.claims
                  && t.st.boxes.Keys == b.st.boxes.Keys && (forall x | x in b.st.boxes && x != id :: t.st.boxes[x] == b.st.boxes[x])
                  && t.st.boxes[id].mail.sink == Some(sock) && t.st.boxes[id].mail.pending == []
                  && t.st.boxes[id].mail.sent == b.st.boxes[id].mail.sent + Stamp(sock, b.st.boxes[id].mail.pending)
                       + [Sent(sock, Ready(id, b.st.boxes[id].slot, b.st.boxes[id].expiresAt))])
  {
    GetMailboxFacts(b.st, id, now);
    if id in b.st.stored { assert IndexOk(b.st, id); }
    hide StoreInv, Stamp, Remove;
  }

  // ---------------------------------------------------------------------------
  // A claimant's frames
  // ---------------------------------------------------------------------------

  /** The claim's table leads to a mailbox that is stored, has not run out, and is spent on it. */
  predicate Owns(b: State, c: Id, peer: Id, id: Id, now: int) {
    && c in b.st.claims && peer in b.st.claims[c].peers && b.st.claims[c].peers[peer] == id
    && id in b.st.stored && id in b.st.boxes && now < b.st.boxes[id].expiresAt && b.st.boxes[id].claimedBy == Some(c)
  }

  predicate BoxTold(b: State, t: State, id: Id, msg: ServerMsg)
    requires id in b.st.boxes
  {
    t.st.boxes == b.st.boxes[id := b.st.boxes[id].(mail := Deliver(b.st.boxes[id].mail, msg))]
  }

  /** Main result: a claimant's confirm, establish or close of one peer is delivered to the mailbox it owns under that
    * handle; an establish or a close also takes the mailbox and the route; a second share is refused; with nothing owned
    * the claimant is told its peer is gone; a close of the whole claim ends it. */
  lemma ClaimantFramesAreDelivered(b: State, c: Id, peer: Id, id: Id, msg: ClientMsg, now: int)
    requires Inv(b) && Owns(b, c, peer, id, now)
    ensures var (t, closed) := ClaimMessage(b, c, msg, now);
            match msg
            case Malformed => t == b && closed
            case Close(about) =>
              && (about.None? ==> closed && c !in t.st.open && c !in t.payloads && t.st.boxes == b.st.boxes && t.st.stored == b.st.stored)
              && (about == Some(peer) ==>
                    && !closed && BoxTold(b, t, id, Failed(Some(peer), ConfirmationFailed))
                    && t.st.stored == b.st.stored - {id} && t.st.claims == b.st.claims[c := b.st.claims[c].(peers := b.st.claims[c].peers - {peer})])
            case Share(p, _, _) => p == peer ==> t == b && closed
            case Confirm(p, tag) =>
              p == peer ==> !closed && BoxTold(b, t, id, PeerConfirm(peer, tag)) && t.st.stored == b.st.stored && t.st.claims == b.st.claims
            case Establish(p, sealed) =>
              p == peer ==>
                && !closed && BoxTold(b, t, id, Established(peer, sealed)) && t.st.stored == b.st.stored - {id}
                && t.st.claims == b.st.claims[c := b.st.claims[c].(peers := b.st.claims[c].peers - {peer})]
  {
    assert OwnedMailbox(b.st, c, peer, now) == (b.st, Some(id));
    hide StoreInv, Deliver, Remove, OwnedMailbox;
    var m := ClaimantRelay(msg, peer);
    RemoveFrame(ToBox(b.st, id, m), {id});
  }

  lemma ClaimantWithoutPeer(b: State, c: Id, peer: Id, msg: ClientMsg, now: int)
    requires Inv(b) && c in b.st.claims && (forall id :: !Owns(b, c, peer, id, now)) && (msg.Share? || msg.Confirm? || msg.Establish?) && msg.peer == peer
    ensures var (t, closed) := ClaimMessage(b, c, msg, now);
            !closed && t.st.boxes == b.st.boxes && t.st.claims == b.st.claims[c := b.st.claims[c].(mail := Deliver(b.st.claims[c].mail, Failed(Some(peer), PeerGone)))]
  {
    OwnedMailboxFacts(b.st, c, peer, now);
    var (s, owned) := OwnedMailbox(b.st, c, peer, now);
    assert owned.Some? ==> Owns(b, c, peer, owned.value, now);
    hide StoreInv, Deliver, OwnedMailbox;
  }

  // ---------------------------------------------------------------------------
  // A claimant that goes
  // ---------------------------------------------------------------------------

  lemma BurnOwnedTells(b: State, c: Id, peer: Id, now: int, id: Id)
    requires Inv(b) && c in b.st.claims && id in b.st.boxes
    ensures var t := BurnOwned(b.st, c, peer, now);
            && id in t.boxes && t.claims == b.st.claims && t.open == b.st.open
            && (Owns(b, c, peer, id, now) ==>
                  id !in t.stored && t.boxes[id] == b.st.boxes[id].(mail := Deliver(b.st.boxes[id].mail, Failed(Some(peer), ConfirmationFailed))))
            && (!Owns(b, c, peer, id, now) ==> t.boxes[id] == b.st.boxes[id] && (id in t.stored <==> id in b.st.stored && !Forgets(b, c, peer, now, id)))
  {
    OwnedMailboxFacts(b.st, c, peer, now);
    var (s, owned) := OwnedMailbox(b.st, c, peer, now);
    hide StoreInv, Deliver, Remove;
    if peer in b.st.claims[c].peers { RemoveFrame(b.st, {b.st.claims[c].peers[peer]}); }
    if owned.Some? { RemoveFrame(ToBox(s, owned.value, Failed(Some(peer), ConfirmationFailed)), {owned.value}); }
  }

  /** Looking a mailbox up drops it when it has run out. */
  predicate Forgets(b: State, c: Id, peer: Id, now: int, id: Id)
    requires c in b.st.claims
  {
    peer in b.st.claims[c].peers && b.st.claims[c].peers[peer] == id && id in b.st.boxes && b.st.boxes[id].expiresAt <= now
  }

  /** Burning one handle: the mailbox it owns stops being owned, any other keeps its state and its owner. */
  lemma BurnOneHandle(b: State, c: Id, handle: Id, now: int, peer: Id, id: Id)
    requires Inv(b) && c in b.st.claims && id in b.st.boxes && (b.st.boxes[id].claimedBy == Some(c) ==> b.st.boxes[id].peer == Some(peer))
    ensures var next := b.(st := BurnOwned(b.st, c, handle, now));
            && Inv(next) && id in next.st.boxes && next.st.claims == b.st.claims
            && next.st.boxes[id].claimedBy == b.st.boxes[id].claimedBy && next.st.boxes[id].peer == b.st.boxes[id].peer
            && (handle != peer || !Owns(b, c, peer, id, now) ==>
                  next.st.boxes[id] == b.st.boxes[id] && (Owns(next, c, peer, id, now) <==> Owns(b, c, peer, id, now)))
            && (handle == peer && Owns(b, c, peer, id, now) ==>
                  && !Owns(next, c, peer, id, now) && id !in next.st.stored
                  && next.st.boxes[id] == b.st.boxes[id].(mail := Deliver(b.st.boxes[id].mail, Failed(Some(peer), ConfirmationFailed))))
  {
    BurnOwnedTells(b, c, handle, now, id);
    BurnOwnedFacts(b.st, c, handle, now);
    if handle in b.st.claims[c].peers { assert RouteOk(b.st, c, handle); }
    hide StoreInv, BurnOwned, Deliver;
  }

  lemma {:induction false} GoneStaysGone(b: State, c: Id, order: seq<Id>, now: int, id: Id)
    requires Inv(b) && c in b.st.claims && id !in b.st.stored
    ensures id !in BurnAll(b.st, c, order, now).stored
  {
    BurnAllFacts(b.st, c, order, now);
    hide BurnAll, StoreInv;
  }

  /** Main result: when a claimant goes, every mailbox it still owned is told so and forgotten, whatever order its handles
    * are walked in, and no other mailbox hears anything. */
  lemma {:induction false} GoingTellsEveryMailbox(b: State, c: Id, order: seq<Id>, now: int, peer: Id, id: Id)
    requires Inv(b) && c in b.st.claims && id in b.st.boxes && (b.st.boxes[id].claimedBy == Some(c) ==> b.st.boxes[id].peer == Some(peer))
    ensures var t := BurnAll(b.st, c, order, now);
            && id in t.boxes
            && (peer in order && Owns(b, c, peer, id, now) ==>
                  id !in t.stored && t.boxes[id] == b.st.boxes[id].(mail := Deliver(b.st.boxes[id].mail, Failed(Some(peer), ConfirmationFailed))))
            && (!Owns(b, c, peer, id, now) || peer !in order ==> t.boxes[id] == b.st.boxes[id])
    decreases |order|
  {
    hide Inv, BurnOwned, Deliver, Owns;
    if order != [] {
      BurnOneHandle(b, c, order[0], now, peer, id);
      var next := b.(st := BurnOwned(b.st, c, order[0], now));
      GoingTellsEveryMailbox(next, c, order[1..], now, peer, id);
      if id !in next.st.stored { GoneStaysGone(next, c, order[1..], now, id); }
      assert peer in order <==> order[0] == peer || peer in order[1..];
    }
  }
}
