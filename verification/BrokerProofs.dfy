/** What every pairing handler keeps, and whom each one can reach. */
module BrokerProofs {
  import opened Options
  import opened Mailboxes
  import opened BrokerState
  import RateLimit

  /** The store's invariant, and a payload for every stored claim. */
  predicate Inv(b: State) {
    StoreInv(b.st) && b.st.open <= b.payloads.Keys
  }

  /** Every mailbox was created no later than the clock says. */
  predicate TimeInv(s: Store, clock: int) {
    forall id | id in s.boxes :: s.boxes[id].createdAt <= clock
  }

  /** None of these handles was ever given to a mailbox, and no two are equal. */
  predicate Fresh(s: Store, handles: seq<Id>) {
    && NoDup(handles)
    && forall i, id | 0 <= i < |handles| && id in s.boxes :: s.boxes[id].peer != Some(handles[i])
  }

  /** The mailbox names the claim and the claim's table names the mailbox, under one handle. */
  predicate Routes(s: Store, c: Id, id: Id) {
    && c in s.claims && id in s.boxes
    && s.boxes[id].claimedBy == Some(c) && s.boxes[id].peer.Some?
    && s.boxes[id].peer.value in s.claims[c].peers
    && s.claims[c].peers[s.boxes[id].peer.value] == id
  }

  // ---------------------------------------------------------------------------
  // Lookups
  // ---------------------------------------------------------------------------

  lemma GetMailboxFacts(s: Store, id: Id, now: int)
    requires StoreInv(s)
    ensures var (t, live) := GetMailbox(s, id, now);
            && StoreInv(t) && t.boxes == s.boxes && t.claims == s.claims && t.open == s.open && t.ttl == s.ttl
            && t.stored <= s.stored
            && (live ==> t == s && id in s.boxes && id in s.stored)
            && (!live ==> id !in t.stored)
  {
    if id in s.stored { assert IndexOk(s, id); }
    RemoveKeepsInv(s, {id});
  }

  lemma GetClaimFacts(s: Store, c: Id, now: int)
    requires StoreInv(s)
    ensures var (t, live) := GetClaim(s, c, now);
            && StoreInv(t) && t == s.(open := t.open) && t.open <= s.open
            && (live ==> t == s && c in s.claims && c in s.open && now < s.claims[c].expiresAt)
  {
    OpenKeepsInv(s, s.open - {c});
  }

  lemma ClaimForFacts(s: Store, id: Id, now: int)
    requires StoreInv(s) && id in s.boxes
    ensures var (t, oc) := ClaimFor(s, id, now);
            && StoreInv(t) && t == s.(open := t.open) && t.open <= s.open
            && (oc.Some? ==> t == s && oc.value in s.open && Routes(s, oc.value, id))
  {
    hide StoreInv, GetClaim;
    if s.boxes[id].claimedBy.Some? {
      GetClaimFacts(s, s.boxes[id].claimedBy.value, now);
    }
  }

  lemma OwnedMailboxFacts(s: Store, c: Id, peer: Id, now: int)
    requires StoreInv(s) && c in s.claims
    ensures var (t, owned) := OwnedMailbox(s, c, peer, now);
            && StoreInv(t) && t.boxes == s.boxes && t.claims == s.claims && t.open == s.open && t.ttl == s.ttl
            && t.stored <= s.stored
            && (owned.Some? ==> t == s && owned.value in s.boxes && owned.value in s.stored)
            && (owned.Some? ==> Routes(s, c, owned.value) && s.boxes[owned.value].peer == Some(peer))
            && (owned.None? && peer in s.claims[c].peers ==> s.claims[c].peers[peer] !in t.stored)
  {
    if peer in s.claims[c].peers {
      assert RouteOk(s, c, peer);
      hide StoreInv, GetMailbox;
      GetMailboxFacts(s, s.claims[c].peers[peer], now);
    }
  }

  // ---------------------------------------------------------------------------
  // Delivery that carries no share to a mailbox, and claims' mail
  // ---------------------------------------------------------------------------

  lemma ToBoxKeepsInv(s: Store, id: Id, msg: ServerMsg)
    requires StoreInv(s) && id in s.boxes && !msg.PeerShare?
    ensures StoreInv(ToBox(s, id, msg))
  {
    hide StoreInv, Shares, Deliver, SetBoxMail;
    SharesConserved(s.boxes[id].mail, msg, 0);
    BoxMailKeepsInv(s, id, Deliver(s.boxes[id].mail, msg));
  }

  lemma ClaimMailKeepsInv(s: Store, c: Id, mail: Mail)
    requires StoreInv(s) && c in s.claims && (s.claims[c].mail.sink.Some? ==> mail.sink.Some?)
    requires mail.sink.None? ==> s.claims[c].peers == map[]
    ensures StoreInv(SetClaimMail(s, c, mail))
  {
    assert ClaimOk(s, c);
    hide StoreInv;
    ClaimChangeKeepsInv(s, c, s.claims[c].(mail := mail));
  }

  lemma ToClaimKeepsInv(s: Store, c: Id, msg: ServerMsg)
    requires StoreInv(s) && c in s.claims
    ensures StoreInv(ToClaim(s, c, msg))
  {
    assert ClaimOk(s, c);
    ClaimMailKeepsInv(s, c, Deliver(s.claims[c].mail, msg));
  }

  lemma ForgetPeerKeepsInv(s: Store, c: Id, peer: Id)
    requires StoreInv(s) && c in s.claims
    requires peer in s.claims[c].peers ==> s.claims[c].peers[peer] !in s.stored
    ensures StoreInv(SetPeers(s, c, s.claims[c].peers - {peer}))
  {
    assert ClaimOk(s, c);
    hide StoreInv;
    ClaimChangeKeepsInv(s, c, s.claims[c].(peers := s.claims[c].peers - {peer}));
  }

  // ---------------------------------------------------------------------------
  // The mailbox socket's handlers
  // ---------------------------------------------------------------------------

  lemma AttachMailboxKeepsInv(b: State, id: Id, sock: Sock, now: int)
    requires Inv(b)
    ensures id in b.st.stored ==> id in b.st.boxes
    ensures Inv(AttachMailbox(b, id, sock, now).0)
  {
    if id in b.st.stored { assert IndexOk(b.st, id); }
    GetMailboxFacts(b.st, id, now);
    hide StoreInv, Shares, Mailboxes.Attach, SetBoxMail, GetMailbox, ToBox;
    var (s, live) := GetMailbox(b.st, id, now);
    if live && s.boxes[id].mail.sink.None? {
      var mail := Mailboxes.Attach(s.boxes[id].mail, sock);
      SharesConserved(s.boxes[id].mail, Failed(None, Expired), sock);
      BoxMailKeepsInv(s, id, mail);
      SetBoxMailFrame(s, id, mail);
      ToBoxKeepsInv(SetBoxMail(s, id, mail), id, Ready(id, s.boxes[id].slot, s.boxes[id].expiresAt));
      ToBoxFrame(SetBoxMail(s, id, mail), id, Ready(id, s.boxes[id].slot, s.boxes[id].expiresAt));
    }
  }

  lemma SetBoxMailFrame(s: Store, id: Id, mail: Mail)
    requires id in s.boxes
    ensures SetBoxMail(s, id, mail).open == s.open && SetBoxMail(s, id, mail).boxes.Keys == s.boxes.Keys
  {
  }

  lemma ToBoxFrame(s: Store, id: Id, msg: ServerMsg)
    requires id in s.boxes
    ensures ToBox(s, id, msg).open == s.open && ToBox(s, id, msg).boxes.Keys == s.boxes.Keys
    ensures ToBox(s, id, msg).claims == s.claims && ToBox(s, id, msg).stored == s.stored
  {
  }

  lemma MailboxMessageKeepsInv(b: State, id: Id, established: bool, msg: ClientMsg, now: int)
    requires Inv(b) && id in b.st.boxes
    ensures Inv(MailboxMessage(b, id, established, msg, now).0)
  {
    ClaimForFacts(b.st, id, now);
    hide StoreInv, ClaimFor, Remove, SidFor, Deliver;
    var (s, oc) := ClaimFor(b.st, id, now);
    var box := b.st.boxes[id];
    RemoveKeepsInv(s, {id});
    if oc.Some? {
      var c := oc.value;
      forall m: ServerMsg ensures StoreInv(ToClaim(s, c, m)) && StoreInv(Remove(ToClaim(s, c, m), {id})) {
        ToClaimKeepsInv(s, c, m);
        RemoveKeepsInv(ToClaim(s, c, m), {id});
      }
      forall m: ServerMsg ensures RemoveOnly(ToClaim(s, c, m), Remove(ToClaim(s, c, m), {id})) && id !in Remove(ToClaim(s, c, m), {id}).stored {
        RemoveFrame(ToClaim(s, c, m), {id});
      }
      if msg.Establish? && box.peer == Some(msg.peer) {
        ForgetPeerKeepsInv(Remove(ToClaim(s, c, Established(msg.peer, msg.sealed)), {id}), c, msg.peer);
      }
    } else {
      if box.peer.Some? {
        ToBoxKeepsInv(s, id, Failed(box.peer, PeerGone));
      }
    }
    RemoveFrame(s, {id});
  }

  lemma MailboxClosedKeepsInv(b: State, id: Id, established: bool)
    requires Inv(b) && id in b.st.boxes
    ensures Inv(MailboxClosed(b, id, established))
  {
    RemoveKeepsInv(b.st, {id});
    BoxMailKeepsInv(b.st, id, b.st.boxes[id].mail.(sink := None));
  }

  // ---------------------------------------------------------------------------
  // Fan-out
  // ---------------------------------------------------------------------------

  lemma OfferedMail(m: Mail, msg: ServerMsg)
    requires Shares(m) == 0
    ensures Shares(Deliver(m, msg)) <= 1
  {
    SharesConserved(m, msg, 0);
  }

  lemma OfferOneKeepsInv(s: Store, c: Id, id: Id, peer: Id, payload: Payload)
    requires StoreInv(s) && c in s.claims && id in s.boxes
    requires s.claims[c].mail.sink.Some? && s.boxes[id].claimedBy.None?
    requires Fresh(s, [peer]) && s.boxes[id].expiresAt <= s.claims[c].expiresAt
    ensures StoreInv(OfferOne(s, c, id, peer, payload))
  {
    hide Shares, Deliver;
    var t := OfferOne(s, c, id, peer, payload);
    assert forall x | x in s.boxes :: s.boxes[x].peer != Some([peer][0]);
    assert BoxOk(s, id);
    OfferedMail(s.boxes[id].mail, PeerShare(peer, payload.share, payload.ad, payload.sid));
    forall p | p in s.claims[c].peers ensures p != peer {
      assert RouteOk(s, c, p);
    }
    forall x | x in t.boxes ensures BoxOk(t, x) && OwnedOk(t, x) { assert BoxOk(s, x) && OwnedOk(s, x); }
    OfferOneKeepsRest(s, c, id, peer, payload);
  }

  lemma OfferOneKeepsRest(s: Store, c: Id, id: Id, peer: Id, payload: Payload)
    requires StoreInv(s) && c in s.claims && id in s.boxes
    requires s.claims[c].mail.sink.Some? && s.boxes[id].claimedBy.None?
    requires Fresh(s, [peer])
    ensures var t := OfferOne(s, c, id, peer, payload);
            && (forall c | c in t.claims :: ClaimOk(t, c))
            && (forall c, p | c in t.claims && p in t.claims[c].peers :: RouteOk(t, c, p))
            && (forall i, j | i in t.boxes && j in t.boxes :: HandleOk(t, i, j))
            && (forall slot | slot in t.slots :: SlotOk(t, slot))
            && (forall id | id in t.stored :: IndexOk(t, id))
            && t.open <= t.claims.Keys
  {
    hide Deliver;
    var t := OfferOne(s, c, id, peer, payload);
    assert forall x | x in s.boxes :: s.boxes[x].peer != Some([peer][0]);
    assert BoxOk(s, id);
    forall k | k in t.slots ensures SlotOk(t, k) { assert SlotOk(s, k); }
    forall x | x in t.stored ensures IndexOk(t, x) { assert IndexOk(s, x); }
    forall d | d in t.claims ensures ClaimOk(t, d) { assert ClaimOk(s, d); }
    forall d, q | d in t.claims && q in t.claims[d].peers ensures RouteOk(t, d, q) {
      if d != c || q != peer { assert RouteOk(s, d, q); }
    }
    forall i, j | i in t.boxes && j in t.boxes ensures HandleOk(t, i, j) {
      if i != id && j != id { assert HandleOk(s, i, j); }
    }
  }

  /** Mailboxes that may be offered to a claim: unspent, distinct, and dying no later than it. */
  predicate Offerable(s: Store, c: Id, ids: seq<Id>)
    requires c in s.claims
  {
    && NoDup(ids)
    && forall i | 0 <= i < |ids| :: ids[i] in s.boxes && s.boxes[ids[i]].claimedBy.None? && s.boxes[ids[i]].expiresAt <= s.claims[c].expiresAt
  }

  lemma OfferOneKeepsRestOfferable(s: Store, c: Id, ids: seq<Id>, handles: seq<Id>, payload: Payload)
    requires c in s.claims && ids != [] && handles != []
    requires Offerable(s, c, ids) && Fresh(s, handles)
    ensures var t := OfferOne(s, c, ids[0], handles[0], payload);
            && Offerable(t, c, ids[1..]) && Fresh(t, handles[1..])
            && t.claims[c].mail.sink == s.claims[c].mail.sink && t.claims[c].expiresAt == s.claims[c].expiresAt
  {
    hide Deliver;
    var t := OfferOne(s, c, ids[0], handles[0], payload);
    assert forall i | 0 <= i < |handles[1..]| :: handles[1..][i] == handles[i + 1] && handles[i + 1] != handles[0];
    forall i, id | 0 <= i < |handles[1..]| && id in t.boxes ensures t.boxes[id].peer != Some(handles[1..][i]) {
      assert s.boxes[id].peer != Some(handles[i + 1]);
    }
    forall i | 0 <= i < |ids[1..]| ensures ids[1..][i] in t.boxes && t.boxes[ids[1..][i]].claimedBy.None? && t.boxes[ids[1..][i]].expiresAt <= t.claims[c].expiresAt {
      assert ids[1..][i] == ids[i + 1] && ids[i + 1] != ids[0];
    }
  }

  lemma {:induction false} FanOutKeepsInv(s: Store, c: Id, ids: seq<Id>, handles: seq<Id>, payload: Payload)
    requires StoreInv(s) && c in s.claims && s.claims[c].mail.sink.Some?
    requires Offerable(s, c, ids) && Fresh(s, handles) && forall id | id in ids :: id in s.boxes
    ensures StoreInv(FanOut(s, c, ids, handles, payload))
    ensures FanOut(s, c, ids, handles, payload).open == s.open
    decreases |ids|
  {
    hide StoreInv, OfferOne;
    if ids != [] && handles != [] {
      assert Fresh(s, [handles[0]]) by {
        forall i, id | 0 <= i < 1 && id in s.boxes ensures s.boxes[id].peer != Some([handles[0]][i]) {
          assert s.boxes[id].peer != Some(handles[0]);
        }
      }
      OfferOneKeepsInv(s, c, ids[0], handles[0], payload);
      OfferOneKeepsRestOfferable(s, c, ids, handles, payload);
      OfferOneFrame(s, c, ids[0], handles[0], payload);
      FanOutKeepsInv(OfferOne(s, c, ids[0], handles[0], payload), c, ids[1..], handles[1..], payload);
    }
  }

  /** An offer spends exactly the one mailbox, tells only it, and changes nothing else about any record. */
  lemma OfferOneFrame(s: Store, c: Id, id: Id, peer: Id, payload: Payload)
    requires c in s.claims && id in s.boxes
    ensures var t := OfferOne(s, c, id, peer, payload);
            && t.open == s.open && t.stored == s.stored && t.slots == s.slots && t.ttl == s.ttl
            && (forall x | x in s.boxes && x != id :: t.boxes[x] == s.boxes[x])
            && (forall d | d in s.claims && d != c :: t.claims[d] == s.claims[d])
            && t.claims[c] == s.claims[c].(peers := t.claims[c].peers)
            && (s.boxes[id].claimedBy.Some? ==> t.boxes[id] == s.boxes[id])
            && (s.boxes[id].claimedBy.None? ==>
                && t.boxes[id] == s.boxes[id].(claimedBy := Some(c), peer := Some(peer),
                     mail := Deliver(s.boxes[id].mail, PeerShare(peer, payload.share, payload.ad, payload.sid)))
                && t.claims[c].peers == s.claims[c].peers[peer := id])
  {
  }

  /** A slot never offers more than two mailboxes, all of them unspent and on that slot. */
  lemma LiveFacts(s: Store, slot: Slot, now: int)
    requires StoreInv(s)
    ensures var (t, ids) := LiveMailboxesForSlot(s, slot, now);
            && StoreInv(t) && RemoveOnly(s, t) && NoDup(ids) && |ids| <= MAX_MAILBOXES_PER_SLOT
            && forall i | 0 <= i < |ids| :: ids[i] in t.boxes && ids[i] in t.stored && t.boxes[ids[i]].claimedBy.None? && t.boxes[ids[i]].slot == slot
  {
    var (t, ids) := LiveMailboxesForSlot(s, slot, now);
    RemoveKeepsInv(s, LapsedOn(s, slot, now));
    UnclaimedIn(t, SlotIds(t, slot));
    if slot in t.slots {
      assert SlotOk(t, slot);
    }
    forall i | 0 <= i < |ids| ensures ids[i] in t.boxes && ids[i] in t.stored && t.boxes[ids[i]].claimedBy.None? && t.boxes[ids[i]].slot == slot {
      assert ids[i] in Unclaimed(t, SlotIds(t, slot));
      assert ids[i] in SlotIds(t, slot);
    }
  }

  lemma ReadyKeepsInv(b: State, c: Id, sock: Sock, now: int)
    requires StoreInv(b.st) && c in b.st.claims && b.st.claims[c].mail.sink.None?
    ensures var s := Extended(b.st, c, sock, now);
            && StoreInv(s) && s.boxes == b.st.boxes && s.open == b.st.open && s.stored == b.st.stored && s.ttl == b.st.ttl
            && s.claims.Keys == b.st.claims.Keys && s.claims[c].mail.sink == Some(sock) && s.claims[c].expiresAt == now + s.ttl
            && s.claims[c].slot == b.st.claims[c].slot && s.claims[c].peers == map[]
            && (forall d | d in s.claims && d != c :: s.claims[d] == b.st.claims[d])
  {
    assert ClaimOk(b.st, c);
    var next := b.st.claims[c].(mail := Mailboxes.Attach(b.st.claims[c].mail, sock), expiresAt := now + b.st.ttl);
    assert Extended(b.st, c, sock, now) == b.st.(claims := b.st.claims[c := next]);
    hide StoreInv;
    ClaimChangeKeepsInv(b.st, c, next);
  }

  lemma EngageKeepsInv(b: State, c: Id, sock: Sock, handles: seq<Id>, now: int)
    requires Inv(b) && TimeInv(b.st, now) && c in b.st.claims && b.st.claims[c].mail.sink.None? && Fresh(b.st, handles)
    ensures Inv(Engage(b, c, sock, handles, now))
  {
    var s := Extended(b.st, c, sock, now);
    ReadyKeepsInv(b, c, sock, now);
    if c in b.payloads {
      var (t, ids) := LiveMailboxesForSlot(s, s.claims[c].slot, now);
      LiveFacts(s, s.claims[c].slot, now);
      assert Offerable(t, c, ids) by {
        forall i | 0 <= i < |ids| ensures t.boxes[ids[i]].expiresAt <= t.claims[c].expiresAt {
          assert BoxOk(t, ids[i]);
        }
      }
      hide StoreInv, LiveMailboxesForSlot, FanOut, Extended;
      FanOutKeepsInv(t, c, ids, handles, b.payloads[c]);
    }
  }

  lemma ChargeFrame(b: State, slot: Slot, now: int)
    ensures ChargeBudgets(b, slot, now).0.st == b.st && ChargeBudgets(b, slot, now).0.payloads == b.payloads
  {
  }

  lemma DropClaimKeepsInv(b: State, c: Id)
    requires Inv(b)
    ensures Inv(DropClaim(b, c))
  {
    OpenKeepsInv(b.st, b.st.open - {c});
  }

  lemma AttachClaimKeepsInv(b: State, c: Id, sock: Sock, handles: seq<Id>, now: int)
    requires Inv(b) && TimeInv(b.st, now) && Fresh(b.st, handles)
    ensures c in b.st.open ==> c in b.st.claims
    ensures Inv(AttachClaim(b, c, sock, handles, now).0)
  {
    GetClaimFacts(b.st, c, now);
    if c in b.st.claims {
      var (charged, ok) := ChargeBudgets(b, b.st.claims[c].slot, now);
      ChargeFrame(b, b.st.claims[c].slot, now);
      DropClaimKeepsInv(charged, c);
      if b.st.claims[c].mail.sink.None? {
        EngageKeepsInv(charged, c, sock, handles, now);
        DropClaimKeepsInv(Engage(charged, c, sock, handles, now), c);
      }
    }
    hide StoreInv, Engage, ChargeBudgets, GetClaim;
  }

  // ---------------------------------------------------------------------------
  // The claim socket's other handlers, and the sweeper
  // ---------------------------------------------------------------------------

  lemma BurnOwnedFacts(s: Store, c: Id, peer: Id, now: int)
    requires StoreInv(s) && c in s.claims
    ensures var t := BurnOwned(s, c, peer, now);
            && StoreInv(t) && t.claims == s.claims && t.open == s.open && t.stored <= s.stored && t.boxes.Keys == s.boxes.Keys
            && (peer in s.claims[c].peers ==> s.claims[c].peers[peer] !in t.stored)
  {
    hide StoreInv, OwnedMailbox, ToBox, Remove;
    OwnedMailboxFacts(s, c, peer, now);
    var (t, owned) := OwnedMailbox(s, c, peer, now);
    if owned.Some? {
      var u := ToBox(t, owned.value, Failed(Some(peer), ConfirmationFailed));
      ToBoxKeepsInv(t, owned.value, Failed(Some(peer), ConfirmationFailed));
      ToBoxFrame(t, owned.value, Failed(Some(peer), ConfirmationFailed));
      RemoveKeepsInv(u, {owned.value});
      RemoveFrame(u, {owned.value});
    }
  }

  lemma ClaimMessageKeepsInv(b: State, c: Id, msg: ClientMsg, now: int)
    requires Inv(b) && c in b.st.claims
    ensures Inv(ClaimMessage(b, c, msg, now).0)
  {
    DropClaimKeepsInv(b, c);
    hide StoreInv, OwnedMailbox, BurnOwned, ToBox, Remove, Deliver;
    if msg.Close? {
      if msg.about.Some? {
        BurnOwnedFacts(b.st, c, msg.about.value, now);
        ForgetPeerKeepsInv(BurnOwned(b.st, c, msg.about.value, now), c, msg.about.value);
      }
    } else if !msg.Malformed? {
      OwnedMailboxFacts(b.st, c, msg.peer, now);
      var (s, owned) := OwnedMailbox(b.st, c, msg.peer, now);
      if owned.None? {
        ToClaimKeepsInv(s, c, Failed(Some(msg.peer), PeerGone));
      } else if msg.Confirm? {
        ToBoxKeepsInv(s, owned.value, PeerConfirm(msg.peer, msg.tag));
        ToBoxFrame(s, owned.value, PeerConfirm(msg.peer, msg.tag));
      } else if msg.Establish? {
        var u := ToBox(s, owned.value, Established(msg.peer, msg.sealed));
        ToBoxKeepsInv(s, owned.value, Established(msg.peer, msg.sealed));
        ToBoxFrame(s, owned.value, Established(msg.peer, msg.sealed));
        RemoveKeepsInv(u, {owned.value});
        RemoveFrame(u, {owned.value});
        ForgetPeerKeepsInv(Remove(u, {owned.value}), c, msg.peer);
      }
    }
  }

  lemma {:induction false} BurnAllFacts(s: Store, c: Id, order: seq<Id>, now: int)
    requires StoreInv(s) && c in s.claims
    ensures var t := BurnAll(s, c, order, now);
            && StoreInv(t) && t.claims == s.claims && t.open == s.open && t.stored <= s.stored && t.boxes.Keys == s.boxes.Keys
            && (forall p | p in order && p in s.claims[c].peers :: s.claims[c].peers[p] !in t.stored)
    decreases |order|
  {
    hide StoreInv, BurnOwned;
    if order != [] {
      BurnOwnedFacts(s, c, order[0], now);
      BurnAllFacts(BurnOwned(s, c, order[0], now), c, order[1..], now);
      assert forall p :: p in order <==> p == order[0] || p in order[1..];
    }
  }

  /** Main result: once an attached claim's socket has closed, whatever order its handles were
    * walked in, no mailbox still stored belongs to it. */
  lemma ClosedClaimOwnsNothing(b: State, c: Id, order: seq<Id>, now: int)
    requires Inv(b) && c in b.st.claims && forall p | p in b.st.claims[c].peers :: p in order
    ensures Inv(ClaimClosed(b, c, order, now))
    ensures var t := ClaimClosed(b, c, order, now).st;
            c !in t.open && forall id | id in t.stored && id in t.boxes :: t.boxes[id].claimedBy != Some(c)
  {
    hide BurnAll;
    var s := BurnAll(b.st, c, order, now);
    BurnAllFacts(b.st, c, order, now);
    DropClaimKeepsInv(b.(st := s), c);
    forall id | id in s.stored && id in s.boxes ensures s.boxes[id].claimedBy != Some(c) {
      assert OwnedOk(s, id) && BoxOk(s, id);
    }
  }

  /** After a sweep the payloads are exactly those of the claims still stored. */
  lemma SweepAllKeepsInv(b: State, now: int, later: int)
    requires Inv(b)
    ensures Inv(SweepAll(b, now, later))
    ensures SweepAll(b, now, later).payloads.Keys == SweepAll(b, now, later).st.open
  {
    var dead := set id | id in b.st.stored && Lapsed(b.st, id, now);
    RemoveKeepsInv(b.st, dead);
    var p := Remove(b.st, dead);
    var s := SweepStore(b.st, now);
    OpenKeepsInv(p, s.open);
    var swept := SweepAll(b, now, later);
    assert swept.st == s.(open := swept.st.open);
    OpenKeepsInv(s, swept.st.open);
  }

  // ---------------------------------------------------------------------------
  // Consequences in any state that satisfies the invariant
  // ---------------------------------------------------------------------------

  /** A claimed mailbox never outlives its claim: while it is stored and unexpired and its claim
    * has not been destroyed, its holder still reaches that claim. */
  lemma ClaimOutlivesMailbox(b: State, id: Id, now: int)
    requires Inv(b) && id in b.st.stored && id in b.st.boxes && !Lapsed(b.st, id, now)
    requires b.st.boxes[id].claimedBy.Some? && b.st.boxes[id].claimedBy.value in b.st.open
    ensures b.st.boxes[id].expiresAt <= b.st.claims[b.st.boxes[id].claimedBy.value].expiresAt
    ensures ClaimFor(b.st, id, now) == (b.st, b.st.boxes[id].claimedBy)
  {
    assert BoxOk(b.st, id) && OwnedOk(b.st, id);
  }

  /** The zero `sid` is never echoed: a claim a holder can reach always still has its payload. */
  lemma SidIsTheClaimants(b: State, id: Id, now: int)
    requires Inv(b) && id in b.st.boxes && ClaimFor(b.st, id, now).1.Some?
    ensures var c := ClaimFor(b.st, id, now).1.value;
            c in b.payloads && SidFor(b, c) == b.payloads[c].sid
  {
    ClaimForFacts(b.st, id, now);
  }

  /** Routing is one-to-one: two routes to one mailbox are the same claim and the same handle,
    * and one handle never leads two claims anywhere. */
  lemma RoutesAreOneToOne(s: Store, c: Id, p: Id, d: Id, q: Id)
    requires StoreInv(s) && c in s.claims && d in s.claims && p in s.claims[c].peers && q in s.claims[d].peers
    ensures s.claims[c].peers[p] == s.claims[d].peers[q] <==> p == q
    ensures p == q ==> c == d
  {
    assert RouteOk(s, c, p) && RouteOk(s, d, q);
    assert HandleOk(s, s.claims[c].peers[p], s.claims[d].peers[q]);
  }

  // ---------------------------------------------------------------------------
  // Whom a frame can reach
  // ---------------------------------------------------------------------------

  /** The handle a server message is about. */
  function About(msg: ServerMsg): Option<Id> {
    match msg
    case Ready(_, _, _) => None
    case PeerShare(peer, _, _, _) => Some(peer)
    case PeerConfirm(peer, _) => Some(peer)
    case Established(peer, _) => Some(peer)
    case Failed(about, _) => about
  }

  /** One record's mail grew by one message about this handle, or not at all. */
  predicate Told(before: Mail, after: Mail, msg: ServerMsg, peer: Option<Id>) {
    after == Deliver(before, msg) && About(msg) == peer
  }

  /** What a holder's frame has delivered to its claim, if it reaches it. */
  function HolderRelay(b: State, id: Id, c: Id, msg: ClientMsg): ServerMsg
    requires id in b.st.boxes
  {
    match msg
    case Share(peer, share, ad) => PeerShare(peer, share, ad, SidFor(b, c))
    case Confirm(peer, tag) => PeerConfirm(peer, tag)
    case Establish(peer, sealed) => Established(peer, sealed)
    case _ => Failed(b.st.boxes[id].peer, if msg.Close? && msg.about.Some? then ConfirmationFailed else PeerGone)
  }

  lemma ToClaimFrame(s: Store, c: Id, msg: ServerMsg)
    requires c in s.claims
    ensures var t := ToClaim(s, c, msg);
            t == s.(claims := s.claims[c := s.claims[c].(mail := Deliver(s.claims[c].mail, msg))])
  {
  }

  /** A holder's frame is let through when it names the handle its mailbox was claimed under, or closes. */
  predicate Addressed(b: State, id: Id, msg: ClientMsg)
    requires id in b.st.boxes
  {
    match msg
    case Malformed => false
    case Close(_) => true
    case _ => b.st.boxes[id].peer == Some(msg.peer)
  }

  /** A frame that reaches the claim changes its mail by exactly the relayed message, and no mailbox. */
  lemma HolderRelays(b: State, id: Id, established: bool, msg: ClientMsg, now: int)
    requires Inv(b) && id in b.st.boxes && ClaimFor(b.st, id, now).1.Some?
    ensures var c := ClaimFor(b.st, id, now).1.value;
            var t := MailboxMessage(b, id, established, msg, now).0.st;
            && Routes(b.st, c, id) && t.boxes == b.st.boxes && c in t.claims
            && t.claims == b.st.claims[c := t.claims[c]] && t.claims[c].slot == b.st.claims[c].slot && t.ttl == b.st.ttl
            && (t.claims[c].mail == b.st.claims[c].mail || t.claims[c].mail == Deliver(b.st.claims[c].mail, HolderRelay(b, id, c, msg)))
            && (Addressed(b, id, msg) || t == b.st)
  {
    ClaimForFacts(b.st, id, now);
    hide StoreInv, ClaimFor, Deliver, SidFor, Remove, ToClaim, Routes;
    var c := ClaimFor(b.st, id, now).1.value;
    var m := HolderRelay(b, id, c, msg);
    assert c in b.st.claims;
    ToClaimFrame(b.st, c, m);
    RemoveFrame(ToClaim(b.st, c, m), {id});
  }

  /** A frame that finds no claim changes at most this mailbox's own mail: its peer is gone. */
  lemma HolderAlone(b: State, id: Id, established: bool, msg: ClientMsg, now: int)
    requires Inv(b) && id in b.st.boxes && ClaimFor(b.st, id, now).1.None?
    ensures var t := MailboxMessage(b, id, established, msg, now).0.st;
            && t.claims == b.st.claims && t.ttl == b.st.ttl
            && (t.boxes == b.st.boxes || t == ToBox(t.(boxes := b.st.boxes), id, Failed(b.st.boxes[id].peer, PeerGone)))
  {
    ClaimForFacts(b.st, id, now);
    hide StoreInv, ClaimFor, Deliver, SidFor, Remove;
    RemoveFrame(ClaimFor(b.st, id, now).0, {id});
  }

  /** A holder's frame reaches nobody but the claim routed to its mailbox, and only under that
    * mailbox's own handle; the only mailbox that hears anything is its own, told its peer is gone. */
  lemma HolderReachesItsClaimOnly(b: State, id: Id, established: bool, msg: ClientMsg, now: int, x: Id, d: Id)
    requires Inv(b) && id in b.st.boxes
    ensures var t := MailboxMessage(b, id, established, msg, now).0.st;
            && t.boxes.Keys == b.st.boxes.Keys && t.claims.Keys == b.st.claims.Keys
            && (x in b.st.boxes && t.boxes[x] != b.st.boxes[x] ==>
                 x == id && Told(b.st.boxes[x].mail, t.boxes[x].mail, Failed(b.st.boxes[id].peer, PeerGone), b.st.boxes[id].peer))
            && (d in b.st.claims && t.claims[d].mail != b.st.claims[d].mail ==>
                 Routes(b.st, d, id) && Told(b.st.claims[d].mail, t.claims[d].mail, HolderRelay(b, id, d, msg), b.st.boxes[id].peer))
  {
    hide StoreInv, ClaimFor, Deliver, SidFor, MailboxMessage;
    if ClaimFor(b.st, id, now).1.Some? {
      HolderRelays(b, id, established, msg, now);
    } else {
      HolderAlone(b, id, established, msg, now);
    }
  }

  /** What a claimant's frame has delivered to the mailbox it owns under a handle. */
  function ClaimantRelay(msg: ClientMsg, peer: Id): ServerMsg {
    match msg
    case Confirm(_, tag) => PeerConfirm(peer, tag)
    case Establish(_, sealed) => Established(peer, sealed)
    case _ => Failed(Some(peer), ConfirmationFailed)
  }

  /** A claimant's frame reaches nobody but mailboxes routed from its own claim, each under its own
    * handle, and never as a second share; the only claim that hears anything is its own. */
  lemma ClaimantReachesItsMailboxesOnly(b: State, c: Id, msg: ClientMsg, now: int, x: Id, d: Id)
    requires Inv(b) && c in b.st.claims
    ensures var t := ClaimMessage(b, c, msg, now).0.st;
            && t.boxes.Keys == b.st.boxes.Keys && t.claims.Keys == b.st.claims.Keys
            && (x in b.st.boxes && t.boxes[x] != b.st.boxes[x] ==>
                 Routes(b.st, c, x) && Told(b.st.boxes[x].mail, t.boxes[x].mail, ClaimantRelay(msg, b.st.boxes[x].peer.value), b.st.boxes[x].peer))
            && (d in b.st.claims && t.claims[d] != b.st.claims[d] ==> d == c)
  {
    hide StoreInv, OwnedMailbox, Deliver, Remove;
    if msg.Close? {
      if msg.about.Some? {
        var peer := msg.about.value;
        OwnedMailboxFacts(b.st, c, peer, now);
        var (s, owned) := OwnedMailbox(b.st, c, peer, now);
        if owned.Some? { RemoveFrame(ToBox(s, owned.value, Failed(Some(peer), ConfirmationFailed)), {owned.value}); }
      }
    } else if !msg.Malformed? {
      OwnedMailboxFacts(b.st, c, msg.peer, now);
      var (s, owned) := OwnedMailbox(b.st, c, msg.peer, now);
      if owned.Some? { RemoveFrame(ToBox(s, owned.value, ClaimantRelay(msg, msg.peer)), {owned.value}); }
    }
  }
}

/** The broker and its two socket handlers as objects (apps/api/src/broker.ts).

  Each method is proved to take the broker's state exactly where the function of
  the same handler in `BrokerState` says; what the handlers keep is proved there.
 */
module BrokerObjects {
  import opened Options
  import opened Mailboxes
  import opened MailboxObjects
  import opened BrokerState
  import opened BrokerProofs
  import RateLimit

  /** The claims still stored once every payload outside `rest` has been asked about. */
  function Surviving(b: State, rest: set<Id>, now: int): set<Id> {
    set c | c in b.st.open && !(c in b.payloads && c !in rest && c in b.st.claims && b.st.claims[c].expiresAt <= now)
  }

  /** The payloads still held at that point: not asked about yet, or answered for. */
  function Payloads(b: State, rest: set<Id>, now: int): map<Id, Payload> {
    map c | c in b.payloads && (c in rest || c in Surviving(b, rest, now)) :: b.payloads[c]
  }

  lemma SurvivingEnds(b: State, now: int)
    requires StoreInv(b.st)
    ensures b.st.open <= b.st.claims.Keys
    ensures Surviving(b, b.payloads.Keys, now) == b.st.open && Surviving(b, {}, now) == SweepPayloads(b, now).st.open
    ensures Payloads(b, b.payloads.Keys, now) == b.payloads && Payloads(b, {}, now) == SweepPayloads(b, now).payloads
  {
  }

  lemma SurvivingStep(b: State, rest: set<Id>, c: Id, now: int)
    requires c in b.payloads && c !in rest && b.st.open <= b.st.claims.Keys
    ensures Surviving(b, rest, now) ==
            if c in b.st.open && b.st.claims[c].expiresAt <= now then Surviving(b, rest + {c}, now) - {c} else Surviving(b, rest + {c}, now)
    ensures c in Surviving(b, rest + {c}, now) <==> c in b.st.open
    ensures Payloads(b, rest, now) ==
            if c in b.st.open && b.st.claims[c].expiresAt > now then Payloads(b, rest + {c}, now) else Payloads(b, rest + {c}, now) - {c}
  {
  }

  class Broker {
    const store: MailboxStore
    const slotClaimLimiter: RateLimit.RateLimiter
    const globalClaimLimiter: RateLimit.RateLimiter
    /** kept only long enough to fan a claim out and echo its sid */
    var claimPayloads: map<Id, Payload>

    constructor (store: MailboxStore, slotClaimLimiter: RateLimit.RateLimiter, globalClaimLimiter: RateLimit.RateLimiter)
      requires slotClaimLimiter != globalClaimLimiter && StoreInv(store.View()) && store.claims == {}
      ensures this.store == store && this.slotClaimLimiter == slotClaimLimiter && this.globalClaimLimiter == globalClaimLimiter
      ensures Valid() && View() == State(store.View(), map[], slotClaimLimiter.View(), globalClaimLimiter.View())
    {
      this.store, this.slotClaimLimiter, this.globalClaimLimiter := store, slotClaimLimiter, globalClaimLimiter;
      claimPayloads := map[];
    }

    ghost predicate Valid()
      reads this, store
    {
      slotClaimLimiter != globalClaimLimiter && StoreInv(store.View()) && store.claims <= claimPayloads.Keys
    }

    ghost function View(): State
      reads this, store, slotClaimLimiter, globalClaimLimiter
    {
      State(store.View(), claimPayloads, slotClaimLimiter.View(), globalClaimLimiter.View())
    }

    method OpenClaim(c: Id, slot: Slot, payload: Payload, now: int)
      requires Valid() && c !in store.claimRecords
      modifies this, store
      ensures Valid() && View() == BrokerState.PairClaim(old(View()), c, slot, payload, now)
    {
      CreateClaimKeepsInv(store.View(), slot, c, now);
      store.CreateClaim(slot, c, now);
      claimPayloads := claimPayloads[c := payload];
    }

    method DropClaim(c: Id)
      requires Valid()
      modifies this, store
      ensures Valid() && View() == BrokerState.DropClaim(old(View()), c)
    {
      DropClaimKeepsInv(View(), c);
      store.DestroyClaim(c);
      claimPayloads := claimPayloads - {c};
    }

    method AttachMailboxSocket(id: Id, sock: Sock, now: int) returns (handler: MailboxSocket?, ghost outcome: Outcome)
      requires Valid()
      modifies store
      ensures id in old(store.mailboxes) ==> id in old(store.boxes)
      ensures Valid() && (View(), outcome) == AttachMailbox(old(View()), id, sock, now)
      ensures outcome.Attached? <==> handler != null
      ensures handler != null ==> fresh(handler) && handler.broker == this && handler.mailbox == id && !handler.established && handler.Valid()
    {
      AttachMailboxKeepsInv(View(), id, sock, now);
      hide StoreInv, Mailboxes.Attach, Deliver, SetBoxMail, ToBox;
      var live := store.GetMailbox(id, now);
      if !live {
        return null, Rejected(Some(Failed(None, Expired)));
      }
      if store.boxes[id].mail.sink.Some? {
        return null, Rejected(None);
      }
      store.AttachToMailbox(id, sock);
      store.DeliverToMailbox(id, Ready(id, store.boxes[id].slot, store.boxes[id].expiresAt));
      handler := new MailboxSocket(this, id);
      outcome := Attached;
    }

    /** The claim a mailbox was burned by, if the two still agree. */
    method ClaimForMailbox(id: Id, now: int) returns (c: Option<Id>)
      requires Valid() && id in store.boxes
      modifies store
      ensures Valid() && (store.View(), c) == ClaimFor(old(store.View()), id, now)
    {
      ClaimForFacts(store.View(), id, now);
      var box := store.boxes[id];
      if box.claimedBy.None? || box.peer.None? {
        return None;
      }
      var claim := box.claimedBy.value;
      var live := store.GetClaim(claim, now);
      if live && box.peer.value in store.claimRecords[claim].peers && store.claimRecords[claim].peers[box.peer.value] == id {
        return Some(claim);
      }
      return None;
    }

    /** The mailbox a claim owns under a handle, or none. */
    method OwnedMailboxOf(c: Id, peer: Id, now: int) returns (owned: Option<Id>)
      requires Valid() && c in store.claimRecords
      modifies store
      ensures Valid() && (store.View(), owned) == OwnedMailbox(old(store.View()), c, peer, now)
    {
      if peer !in store.claimRecords[c].peers {
        return None;
      }
      var id := store.claimRecords[c].peers[peer];
      var live := store.GetMailbox(id, now);
      if !live || store.boxes[id].claimedBy != Some(c) {
        return None;
      }
      return Some(id);
    }

    /** Charge both guessing budgets, in order; the first refusal stops the walk. */
    method ChargeGuess(slot: Slot, now: int) returns (ok: bool)
      requires Valid()
      modifies slotClaimLimiter, globalClaimLimiter
      ensures Valid() && (View(), ok) == ChargeBudgets(old(View()), slot, now)
    {
      hide StoreInv, RateLimit.Take;
      ok := slotClaimLimiter.TakeUnit(SlotKey(slot), now);
      if ok {
        ok := globalClaimLimiter.TakeUnit(GLOBAL_KEY, now);
      }
    }

    method OfferTo(c: Id, id: Id, peer: Id, payload: Payload)
      requires c in store.claimRecords && id in store.boxes
      modifies store
      ensures store.View() == OfferOne(old(store.View()), c, id, peer, payload)
    {
      hide Deliver;
      var won := store.ClaimMailbox(id, c, peer);
      if !won {
        return;
      }
      var claim := store.claimRecords[c];
      store.claimRecords := store.claimRecords[c := claim.(peers := claim.peers[peer := id])];
      store.DeliverToMailbox(id, PeerShare(peer, payload.share, payload.ad, payload.sid));
    }

    /** Offer every live mailbox on the claim's slot, each under the next new handle. */
    method FanOutClaim(c: Id, ids: seq<Id>, handles: seq<Id>, payload: Payload)
      requires c in store.claimRecords && (forall id | id in ids :: id in store.boxes) && |ids| <= |handles|
      modifies store
      ensures store.View() == FanOut(old(store.View()), c, ids, handles, payload)
    {
      hide OfferOne;
      ghost var s := store.View();
      for i := 0 to |ids|
        invariant store.boxes.Keys == s.boxes.Keys && store.claimRecords.Keys == s.claims.Keys
        invariant FanOut(store.View(), c, ids[i..], handles[i..], payload) == FanOut(s, c, ids, handles, payload)
      {
        assert ids[i..][0] == ids[i] && ids[i..][1..] == ids[i + 1..];
        assert handles[i..][0] == handles[i] && handles[i..][1..] == handles[i + 1..];
        OfferTo(c, ids[i], handles[i], payload);
      }
    }

    method EngageClaim(c: Id, sock: Sock, handles: seq<Id>, now: int)
      requires Valid() && TimeInv(store.View(), now) && c in store.claimRecords && store.claimRecords[c].mail.sink.None?
      requires Fresh(store.View(), handles) && |handles| == MAX_MAILBOXES_PER_SLOT
      modifies store
      ensures Valid() && View() == Engage(old(View()), c, sock, handles, now)
    {
      EngageKeepsInv(View(), c, sock, handles, now);
      ReadyKeepsInv(View(), c, sock, now);
      hide StoreInv, Mailboxes.LiveMailboxesForSlot, Mailboxes.Attach, FanOut;
      var slot := store.claimRecords[c].slot;
      store.AttachToClaim(c, sock);
      store.ExtendClaim(c, now);
      assert store.View() == Extended(old(store.View()), c, sock, now);
      if c in claimPayloads {
        LiveFacts(store.View(), slot, now);
        var ids := store.LiveMailboxesForSlot(slot, now);
        FanOutClaim(c, ids, handles, claimPayloads[c]);
      }
    }

    method AttachClaimSocket(c: Id, sock: Sock, handles: seq<Id>, now: int) returns (handler: ClaimSocket?, ghost outcome: Outcome)
      requires Valid() && TimeInv(store.View(), now) && Fresh(store.View(), handles) && |handles| == MAX_MAILBOXES_PER_SLOT
      modifies this, store, slotClaimLimiter, globalClaimLimiter
      ensures Valid() && (View(), outcome) == AttachClaim(old(View()), c, sock, handles, now)
      ensures outcome.Attached? <==> handler != null
      ensures handler != null ==> fresh(handler) && handler.broker == this && handler.claim == c && handler.Valid()
    {
      GetClaimFacts(store.View(), c, now);
      hide StoreInv, Engage, ChargeBudgets, TimeInv, Fresh;
      var live := store.GetClaim(c, now);
      if !live {
        return null, Rejected(Some(Failed(None, Expired)));
      }
      if store.claimRecords[c].mail.sink.Some? {
        return null, Rejected(None);
      }
      ChargeFrame(View(), store.claimRecords[c].slot, now);
      var ok := ChargeGuess(store.claimRecords[c].slot, now);
      if !ok {
        DropClaim(c);
        return null, Rejected(Some(Failed(None, RateLimited)));
      }
      EngageClaim(c, sock, handles, now);
      if store.claimRecords[c].peers == map[] {
        DropClaim(c);
        return null, Rejected(Some(Failed(None, PeerGone)));
      }
      handler := new ClaimSocket(this, c);
      outcome := Attached;
    }

    method SweepEverything(now: int, later: int)
      requires Valid()
      modifies this, store
      ensures Valid() && View() == SweepAll(old(View()), now, later)
    {
      SweepAllKeepsInv(View(), now, later);
      hide StoreInv, SweepStore;
      store.Sweep(now);
      SweepClaimPayloads(later);
    }

    /** Ask the store for every payload's claim; a miss drops the payload. */
    method SweepClaimPayloads(now: int)
      requires StoreInv(store.View())
      modifies this, store
      ensures View() == SweepPayloads(old(View()), now)
    {
      ghost var b := View();
      SurvivingEnds(b, now);
      hide StoreInv, Surviving, Payloads;
      var rest := claimPayloads.Keys;
      while rest != {}
        invariant rest <= b.payloads.Keys
        invariant store.View() == b.st.(open := store.claims)
        invariant store.claims == Surviving(b, rest, now)
        invariant claimPayloads == Payloads(b, rest, now)
        decreases |rest|
      {
        var c :| c in rest;
        assert rest == (rest - {c}) + {c};
        rest := rest - {c};
        SurvivingStep(b, rest, c, now);
        var live := store.GetClaim(c, now);
        if !live {
          claimPayloads := claimPayloads - {c};
        }
      }
    }
  }

  class MailboxSocket {
    const broker: Broker
    const mailbox: Id
    /** this side has said its last word of the exchange */
    var established: bool

    constructor (broker: Broker, mailbox: Id)
      requires broker.Valid() && mailbox in broker.store.boxes
      ensures this.broker == broker && this.mailbox == mailbox && !established && Valid()
    {
      this.broker, this.mailbox, established := broker, mailbox, false;
    }

    ghost predicate Valid()
      reads this, broker, broker.store
    {
      broker.Valid() && mailbox in broker.store.boxes
    }

    /** One frame from the holder; the result says whether the broker closed its socket. */
    method Message(msg: ClientMsg, now: int) returns (closed: bool)
      requires Valid()
      modifies this, broker.store
      ensures Valid()
      ensures (broker.View(), established, closed) == MailboxMessage(old(broker.View()), mailbox, old(established), msg, now)
    {
      MailboxMessageKeepsInv(broker.View(), mailbox, established, msg, now);
      hide StoreInv, ClaimFor, Remove, Deliver;
      if msg.Malformed? {
        return true;
      }
      if msg.Close? {
        Abandon(if msg.about.Some? then ConfirmationFailed else PeerGone, now);
        return true;
      }
      closed := Forward(msg, now);
    }

    /** Everything but a close must name the handle this mailbox was claimed under. */
    method Forward(msg: ClientMsg, now: int) returns (closed: bool)
      requires Valid() && !msg.Malformed? && !msg.Close?
      modifies this, broker.store
      ensures (broker.View(), established, closed) == MailboxMessage(old(broker.View()), mailbox, old(established), msg, now)
    {
      ClaimForFacts(broker.store.View(), mailbox, now);
      hide StoreInv, ClaimFor, Remove, Deliver;
      var store := broker.store;
      if store.boxes[mailbox].peer != Some(msg.peer) {
        return true;
      }
      var claim := broker.ClaimForMailbox(mailbox, now);
      if claim.None? {
        store.DeliverToMailbox(mailbox, Failed(store.boxes[mailbox].peer, PeerGone));
        return false;
      }
      Relay(claim.value, msg);
      return false;
    }

    /** Tell the claim, if it can still be reached, and give the mailbox up either way. */
    method Abandon(reason: Reason, now: int)
      requires Valid()
      modifies broker.store
      ensures Valid()
      ensures var b := old(broker.View());
              var (s, oc) := ClaimFor(b.st, mailbox, now);
              (oc.Some? ==> oc.value in s.claims) &&
              broker.View() == b.(st := Remove(if oc.Some? then ToClaim(s, oc.value, Failed(b.st.boxes[mailbox].peer, reason)) else s, {mailbox}))
    {
      ClaimForFacts(broker.store.View(), mailbox, now);
      hide StoreInv, ClaimFor, Remove, Deliver, Routes;
      var closing := broker.ClaimForMailbox(mailbox, now);
      if closing.Some? {
        assert Routes(broker.store.View(), closing.value, mailbox);
        InRoutes(broker.store.View(), closing.value, mailbox);
        NotifyClaim(closing.value, Failed(broker.store.boxes[mailbox].peer, reason));
      }
      RemoveFrame(broker.store.View(), {mailbox});
      broker.store.RemoveMailbox(mailbox);
    }

    method NotifyClaim(c: Id, msg: ServerMsg)
      requires Valid() && c in broker.store.claimRecords
      modifies broker.store
      ensures Valid() && broker.store.View() == ToClaim(old(broker.store.View()), c, msg)
    {
      ToClaimKeepsInv(broker.store.View(), c, msg);
      hide StoreInv, Deliver;
      broker.store.DeliverToClaim(c, msg);
    }

    /** Pass a holder's frame on to the claim it was burned by. */
    method Relay(c: Id, msg: ClientMsg)
      requires Valid() && Routes(broker.store.View(), c, mailbox) && !msg.Malformed? && !msg.Close?
      requires broker.store.boxes[mailbox].peer == Some(msg.peer)
      modifies this, broker.store
      ensures mailbox in broker.store.boxes && established == (old(established) || !msg.Share?)
      ensures var b := old(broker.View());
              var s := ToClaim(b.st, c, HolderRelay(b, mailbox, c, msg));
              broker.View() == b.(st := if msg.Establish? then SetPeers(Remove(s, {mailbox}), c, Remove(s, {mailbox}).claims[c].peers - {msg.peer}) else s)
    {
      hide StoreInv, Remove, Deliver;
      var store := broker.store;
      RemoveFrame(ToClaim(store.View(), c, HolderRelay(broker.View(), mailbox, c, msg)), {mailbox});
      match msg
      case Share(peer, share, ad) =>
        var sid := if c in broker.claimPayloads then broker.claimPayloads[c].sid else ZERO_SID;
        NotifyClaim(c, PeerShare(peer, share, ad, sid));
      case Confirm(peer, tag) =>
        NotifyClaim(c, PeerConfirm(peer, tag));
        established := true;
      case Establish(peer, sealed) =>
        NotifyClaim(c, Established(peer, sealed));
        established := true;
        store.RemoveMailbox(mailbox);
        var claim := store.claimRecords[c];
        store.claimRecords := store.claimRecords[c := claim.(peers := claim.peers - {peer})];
    }

    method Close()
      requires Valid()
      modifies broker.store
      ensures Valid() && broker.View() == MailboxClosed(old(broker.View()), mailbox, established)
    {
      MailboxClosedKeepsInv(broker.View(), mailbox, established);
      hide StoreInv, Remove;
      var store := broker.store;
      RemoveFrame(store.View(), {mailbox});
      if !established {
        store.RemoveMailbox(mailbox);
      } else {
        var box := store.boxes[mailbox];
        store.boxes := store.boxes[mailbox := box.(mail := box.mail.(sink := None))];
      }
    }
  }

  lemma InRoutes(s: Store, c: Id, id: Id)
    requires Routes(s, c, id)
    ensures c in s.claims && id in s.boxes
  {
  }

  class ClaimSocket {
    const broker: Broker
    const claim: Id

    constructor (broker: Broker, claim: Id)
      requires broker.Valid() && claim in broker.store.claimRecords
      ensures this.broker == broker && this.claim == claim && Valid()
    {
      this.broker, this.claim := broker, claim;
    }

    ghost predicate Valid()
      reads this, broker, broker.store
    {
      broker.Valid() && claim in broker.store.claimRecords
    }

    method Burn(peer: Id, now: int)
      requires Valid()
      modifies broker.store
      ensures Valid() && broker.store.View() == BurnOwned(old(broker.store.View()), claim, peer, now)
    {
      BurnOwnedFacts(broker.store.View(), claim, peer, now);
      OwnedMailboxFacts(broker.store.View(), claim, peer, now);
      hide StoreInv, OwnedMailbox, Remove, Deliver, Routes;
      var owned := broker.OwnedMailboxOf(claim, peer, now);
      if owned.Some? {
        TellMailbox(owned.value, Failed(Some(peer), ConfirmationFailed));
        broker.store.RemoveMailbox(owned.value);
      }
    }

    method TellMailbox(id: Id, msg: ServerMsg)
      requires Valid() && id in broker.store.boxes && !msg.PeerShare?
      modifies broker.store
      ensures Valid() && broker.store.View() == ToBox(old(broker.store.View()), id, msg)
    {
      ToBoxKeepsInv(broker.store.View(), id, msg);
      hide StoreInv, Deliver;
      broker.store.DeliverToMailbox(id, msg);
    }

    method ForgetPeer(peer: Id)
      requires claim in broker.store.claimRecords
      modifies broker.store
      ensures broker.store.View() == SetPeers(old(broker.store.View()), claim, old(broker.store.claimRecords)[claim].peers - {peer})
    {
      var record := broker.store.claimRecords[claim];
      broker.store.claimRecords := broker.store.claimRecords[claim := record.(peers := record.peers - {peer})];
    }

    /** A claimant gives up one peer, or, naming none, the whole claim. */
    method GiveUp(about: Option<Id>, now: int) returns (closed: bool)
      requires Valid()
      modifies broker, broker.store
      ensures Valid() && (broker.View(), closed) == ClaimMessage(old(broker.View()), claim, ClientMsg.Close(about), now)
    {
      ClaimMessageKeepsInv(broker.View(), claim, ClientMsg.Close(about), now);
      hide StoreInv, OwnedMailbox, BurnOwned, Remove, Deliver, Routes;
      if about.None? {
        broker.DropClaim(claim);
        return true;
      }
      Burn(about.value, now);
      ForgetPeer(about.value);
      return false;
    }

    /** One frame from the claimant; the result says whether the broker closed its socket. */
    method Message(msg: ClientMsg, now: int) returns (closed: bool)
      requires Valid()
      modifies broker, broker.store
      ensures Valid() && (broker.View(), closed) == ClaimMessage(old(broker.View()), claim, msg, now)
    {
      hide StoreInv, OwnedMailbox, BurnOwned, Remove, Deliver, Routes;
      if msg.Malformed? {
        return true;
      }
      if msg.Close? {
        closed := GiveUp(msg.about, now);
        return;
      }
      closed := Pass(msg, now);
    }

    /** A frame other than a close goes to the mailbox this claim owns under the handle it names. */
    method Pass(msg: ClientMsg, now: int) returns (closed: bool)
      requires Valid() && !msg.Malformed? && !msg.Close?
      modifies broker, broker.store
      ensures Valid() && (broker.View(), closed) == ClaimMessage(old(broker.View()), claim, msg, now)
    {
      ClaimMessageKeepsInv(broker.View(), claim, msg, now);
      hide StoreInv, OwnedMailbox, BurnOwned, Remove, Deliver, Routes;
      OwnedMailboxFacts(broker.store.View(), claim, msg.peer, now);
      var owned := broker.OwnedMailboxOf(claim, msg.peer, now);
      if owned.None? {
        broker.store.DeliverToClaim(claim, Failed(Some(msg.peer), PeerGone));
        return false;
      }
      if msg.Share? {
        return true;
      }
      if msg.Confirm? {
        TellMailbox(owned.value, PeerConfirm(msg.peer, msg.tag));
        return false;
      }
      Conclude(owned.value, msg.peer, msg.sealed);
      return false;
    }

    /** The last message of a successful pairing: pass it on and retire the mailbox and its handle. */
    method Conclude(id: Id, peer: Id, sealed: Blob)
      requires Valid() && id in broker.store.boxes
      modifies broker.store
      ensures var t := Remove(ToBox(old(broker.store.View()), id, Established(peer, sealed)), {id});
              claim in t.claims && broker.store.View() == SetPeers(t, claim, t.claims[claim].peers - {peer})
    {
      hide StoreInv, Remove, Deliver;
      TellMailbox(id, Established(peer, sealed));
      RemoveFrame(broker.store.View(), {id});
      broker.store.RemoveMailbox(id);
      ForgetPeer(peer);
    }

    /** Walk the claim's handles in some order, burning what it still owns, and drop the claim. */
    method Close(now: int) returns (ghost order: seq<Id>)
      requires Valid()
      modifies broker, broker.store
      ensures Valid() && broker.View() == ClaimClosed(old(broker.View()), claim, order, now)
      ensures forall p | p in old(broker.store.claimRecords)[claim].peers :: p in order
    {
      hide StoreInv, BurnOwned;
      ghost var b := broker.View();
      var rest := broker.store.claimRecords[claim].peers.Keys;
      order := [];
      while rest != {}
        invariant Valid() && broker.View() == b.(st := BurnAll(b.st, claim, order, now))
        invariant forall p | p in b.st.claims[claim].peers :: p in rest || p in order
        decreases |rest|
      {
        var peer :| peer in rest;
        rest := rest - {peer};
        BurnAllSnoc(b.st, claim, order, peer, now);
        order := order + [peer];
        Burn(peer, now);
      }
      broker.DropClaim(claim);
    }
  }

  lemma {:induction false} BurnAllSnoc(s: Store, c: Id, order: seq<Id>, peer: Id, now: int)
    requires c in s.claims
    ensures c in BurnAll(s, c, order, now).claims
    ensures BurnAll(s, c, order + [peer], now) == BurnOwned(BurnAll(s, c, order, now), c, peer, now)
    decreases |order|
  {
    if order == [] {
      assert order + [peer] == [peer];
    } else {
      assert (order + [peer])[1..] == order[1..] + [peer];
      BurnAllSnoc(BurnOwned(s, c, order[0], now), c, order[1..], peer, now);
    }
  }
}
