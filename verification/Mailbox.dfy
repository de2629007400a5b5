/** The broker's mailbox store as values (apps/api/src/mailbox.ts).

  `Store` holds every mailbox and claim object ever created, because a socket
  handler keeps its object after the store has forgotten it; `stored` and `open`
  are the keys of the store's own two maps, `slots` its slot index in insertion
  order. A record's `sent` is the history of what its sinks were handed.
 */
module Mailboxes {
  import opened Options

  type Id = string
  type Slot = string
  type Sock = nat
  type Blob = string

  const MAX_MAILBOXES_PER_SLOT := 2
  const MAX_LIVE_MAILBOXES := 10_000
  const CLAIM_ATTACH_TTL_MS := 15_000
  const MAX_PENDING := 16

  datatype Reason = Expired | RateLimited | PeerGone | ConfirmationFailed

  datatype ServerMsg =
    | Ready(mailboxId: Id, slot: Slot, expiresAt: int)
    | PeerShare(peer: Id, share: Blob, ad: Blob, sid: Blob)
    | PeerConfirm(peer: Id, tag: Blob)
    | Established(peer: Id, sealed: Blob)
    | Failed(about: Option<Id>, reason: Reason)

  datatype Sent = Sent(sock: Sock, msg: ServerMsg)

  /** Where broker messages for one record go: the attached socket, or a bounded buffer. */
  datatype Mail = Mail(sink: Option<Sock>, pending: seq<ServerMsg>, sent: seq<Sent>)

  datatype Box = Box(id: Id, slot: Slot, createdAt: int, expiresAt: int,
                     claimedBy: Option<Id>, peer: Option<Id>, mail: Mail)

  datatype Claim = Claim(id: Id, slot: Slot, createdAt: int, expiresAt: int, mail: Mail, peers: map<Id, Id>)

  datatype Store = Store(ttl: int, boxes: map<Id, Box>, stored: set<Id>, slots: map<Slot, seq<Id>>,
                         claims: map<Id, Claim>, open: set<Id>)

  const NO_MAIL := Mail(None, [], [])

  function NewStore(ttl: int): Store {
    Store(ttl, map[], {}, map[], map[], {})
  }

  // ---------------------------------------------------------------------------
  // Delivery
  // ---------------------------------------------------------------------------

  function Deliver(m: Mail, msg: ServerMsg): Mail {
    if m.sink.Some? then m.(sent := m.sent + [Sent(m.sink.value, msg)])
    else if |m.pending| < MAX_PENDING then m.(pending := m.pending + [msg])
    else m
  }

  function Stamp(sock: Sock, msgs: seq<ServerMsg>): seq<Sent> {
    if msgs == [] then [] else [Sent(sock, msgs[0])] + Stamp(sock, msgs[1..])
  }

  function Attach(m: Mail, sock: Sock): Mail {
    Mail(Some(sock), [], m.sent + Stamp(sock, m.pending))
  }

  // ---------------------------------------------------------------------------
  // The store's operations
  // ---------------------------------------------------------------------------

  function SlotIds(s: Store, slot: Slot): seq<Id> {
    if slot in s.slots then s.slots[slot] else []
  }

  function Without(ids: seq<Id>, dead: set<Id>): seq<Id> {
    if ids == [] then []
    else if ids[0] in dead then Without(ids[1..], dead)
    else [ids[0]] + Without(ids[1..], dead)
  }

  /** Forget mailboxes: out of the map, out of the index, and a slot's entry with its last one. */
  function Remove(s: Store, dead: set<Id>): Store {
    s.(stored := s.stored - dead,
       slots := map k | k in s.slots && Without(s.slots[k], dead) != [] :: Without(s.slots[k], dead))
  }

  predicate Lapsed(s: Store, id: Id, now: int) {
    id in s.boxes && s.boxes[id].expiresAt <= now
  }

  function LapsedOn(s: Store, slot: Slot, now: int): set<Id> {
    set id | id in SlotIds(s, slot) && Lapsed(s, id, now)
  }

  function CreateMailbox(s: Store, slot: Slot, id: Id, now: int): (Store, bool) {
    var p := Remove(s, LapsedOn(s, slot, now));
    if |SlotIds(p, slot)| >= MAX_MAILBOXES_PER_SLOT || |p.stored| >= MAX_LIVE_MAILBOXES then (p, false)
    else (AddBox(p, slot, id, now), true)
  }

  function AddBox(s: Store, slot: Slot, id: Id, now: int): Store {
    s.(boxes := s.boxes[id := Box(id, slot, now, now + s.ttl, None, None, NO_MAIL)],
       stored := s.stored + {id},
       slots := s.slots[slot := SlotIds(s, slot) + [id]])
  }

  function GetMailbox(s: Store, id: Id, now: int): (Store, bool) {
    if id !in s.stored then (s, false)
    else if Lapsed(s, id, now) then (Remove(s, {id}), false)
    else (s, true)
  }

  function Unclaimed(s: Store, ids: seq<Id>): seq<Id> {
    if ids == [] then []
    else if ids[0] in s.boxes && s.boxes[ids[0]].claimedBy == None then [ids[0]] + Unclaimed(s, ids[1..])
    else Unclaimed(s, ids[1..])
  }

  function LiveMailboxesForSlot(s: Store, slot: Slot, now: int): (Store, seq<Id>) {
    var p := Remove(s, LapsedOn(s, slot, now));
    (p, Unclaimed(p, SlotIds(p, slot)))
  }

  /** Compare-and-set: bind a mailbox to a claim, once and only once. */
  function ClaimMailbox(s: Store, id: Id, claimId: Id, peer: Id): (Store, bool)
    requires id in s.boxes
  {
    if s.boxes[id].claimedBy.Some? then (s, false)
    else (s.(boxes := s.boxes[id := s.boxes[id].(claimedBy := Some(claimId), peer := Some(peer))]), true)
  }

  function CreateClaim(s: Store, slot: Slot, c: Id, now: int): Store {
    s.(claims := s.claims[c := Claim(c, slot, now, now + CLAIM_ATTACH_TTL_MS, NO_MAIL, map[])],
       open := s.open + {c})
  }

  function GetClaim(s: Store, c: Id, now: int): (Store, bool) {
    if c !in s.open then (s, false)
    else if c in s.claims && s.claims[c].expiresAt <= now then (DestroyClaim(s, c), false)
    else (s, true)
  }

  function DestroyClaim(s: Store, c: Id): Store {
    s.(open := s.open - {c})
  }

  function ExtendClaim(s: Store, c: Id, now: int): Store
    requires c in s.claims
  {
    s.(claims := s.claims[c := s.claims[c].(expiresAt := now + s.ttl)])
  }

  function SweepStore(s: Store, now: int): Store {
    var p := Remove(s, set id | id in s.stored && Lapsed(s, id, now));
    p.(open := set c | c in p.open && !(c in p.claims && p.claims[c].expiresAt <= now))
  }

  function SetBoxMail(s: Store, id: Id, mail: Mail): Store
    requires id in s.boxes
  {
    s.(boxes := s.boxes[id := s.boxes[id].(mail := mail)])
  }

  function SetClaimMail(s: Store, c: Id, mail: Mail): Store
    requires c in s.claims
  {
    s.(claims := s.claims[c := s.claims[c].(mail := mail)])
  }

  function ToBox(s: Store, id: Id, msg: ServerMsg): Store
    requires id in s.boxes
  {
    SetBoxMail(s, id, Deliver(s.boxes[id].mail, msg))
  }

  function ToClaim(s: Store, c: Id, msg: ServerMsg): Store
    requires c in s.claims
  {
    SetClaimMail(s, c, Deliver(s.claims[c].mail, msg))
  }

  function SetPeers(s: Store, c: Id, peers: map<Id, Id>): Store
    requires c in s.claims
  {
    s.(claims := s.claims[c := s.claims[c].(peers := peers)])
  }

  // ---------------------------------------------------------------------------
  // The invariant, one record at a time
  // ---------------------------------------------------------------------------

  function SharesIn(msgs: seq<ServerMsg>): nat {
    if msgs == [] then 0 else (if msgs[0].PeerShare? then 1 else 0) + SharesIn(msgs[1..])
  }

  function SharesSent(sent: seq<Sent>): nat {
    if sent == [] then 0 else (if sent[0].msg.PeerShare? then 1 else 0) + SharesSent(sent[1..])
  }

  /** Every `pair:peer-share` a record was handed or still has buffered. */
  function Shares(m: Mail): nat {
    SharesSent(m.sent) + SharesIn(m.pending)
  }

  predicate BoxOk(s: Store, id: Id)
    requires id in s.boxes
  {
    var b := s.boxes[id];
    && b.id == id
    && b.expiresAt == b.createdAt + s.ttl
    && b.claimedBy.Some? == b.peer.Some?
    && (b.claimedBy.None? ==> Shares(b.mail) == 0)
    && Shares(b.mail) <= 1
    && (b.claimedBy.Some? ==> b.claimedBy.value in s.claims && s.claims[b.claimedBy.value].mail.sink.Some?)
  }

  /** A stored, claimed mailbox is routed to by its claim, and dies no later than it. */
  predicate OwnedOk(s: Store, id: Id)
    requires id in s.boxes
  {
    var b := s.boxes[id];
    id in s.stored && b.claimedBy.Some? && b.peer.Some? && b.claimedBy.value in s.claims ==>
      && b.peer.value in s.claims[b.claimedBy.value].peers
      && s.claims[b.claimedBy.value].peers[b.peer.value] == id
      && b.expiresAt <= s.claims[b.claimedBy.value].expiresAt
  }

  predicate ClaimOk(s: Store, c: Id)
    requires c in s.claims
  {
    && s.claims[c].id == c
    && (s.claims[c].mail.sink.None? ==> s.claims[c].peers == map[])
  }

  /** A route leads to a mailbox that names this claim under this very handle. */
  predicate RouteOk(s: Store, c: Id, p: Id)
    requires c in s.claims && p in s.claims[c].peers
  {
    var id := s.claims[c].peers[p];
    id in s.boxes && s.boxes[id].claimedBy == Some(c) && s.boxes[id].peer == Some(p)
  }

  /** No two mailboxes ever share a peer handle. */
  predicate HandleOk(s: Store, i: Id, j: Id)
    requires i in s.boxes && j in s.boxes
  {
    s.boxes[i].peer.Some? && s.boxes[i].peer == s.boxes[j].peer ==> i == j
  }

  predicate NoDup(ids: seq<Id>) {
    forall i, j | 0 <= i < j < |ids| :: ids[i] != ids[j]
  }

  predicate SlotOk(s: Store, slot: Slot)
    requires slot in s.slots
  {
    var ids := s.slots[slot];
    && 0 < |ids| <= MAX_MAILBOXES_PER_SLOT
    && NoDup(ids)
    && forall i | 0 <= i < |ids| :: ids[i] in s.stored && ids[i] in s.boxes && s.boxes[ids[i]].slot == slot
  }

  predicate IndexOk(s: Store, id: Id)
    requires id in s.stored
  {
    id in s.boxes && id in SlotIds(s, s.boxes[id].slot)
  }

  predicate StoreInv(s: Store) {
    && (forall id | id in s.boxes :: BoxOk(s, id))
    && (forall id | id in s.boxes :: OwnedOk(s, id))
    && (forall c | c in s.claims :: ClaimOk(s, c))
    && (forall c, p | c in s.claims && p in s.claims[c].peers :: RouteOk(s, c, p))
    && (forall i, j | i in s.boxes && j in s.boxes :: HandleOk(s, i, j))
    && (forall slot | slot in s.slots :: SlotOk(s, slot))
    && (forall id | id in s.stored :: IndexOk(s, id))
    && s.open <= s.claims.Keys
  }

  // ---------------------------------------------------------------------------
  // Counting shares through delivery and attachment
  // ---------------------------------------------------------------------------

  lemma {:induction false} SharesInAppend(msgs: seq<ServerMsg>, msg: ServerMsg)
    ensures SharesIn(msgs + [msg]) == SharesIn(msgs) + if msg.PeerShare? then 1 else 0
  {
    if msgs != [] {
      assert (msgs + [msg])[1..] == msgs[1..] + [msg];
      SharesInAppend(msgs[1..], msg);
    }
  }

  lemma {:induction false} SharesSentAppend(a: seq<Sent>, b: seq<Sent>)
    ensures SharesSent(a + b) == SharesSent(a) + SharesSent(b)
  {
    if a == [] {
      assert a + b == b;
    } else {
      assert (a + b)[1..] == a[1..] + b;
      SharesSentAppend(a[1..], b);
    }
  }

  lemma {:induction false} SharesStamp(sock: Sock, msgs: seq<ServerMsg>)
    ensures SharesSent(Stamp(sock, msgs)) == SharesIn(msgs)
  {
    if msgs != [] {
      assert Stamp(sock, msgs)[1..] == Stamp(sock, msgs[1..]);
      SharesStamp(sock, msgs[1..]);
    }
  }

  /** Attaching a socket loses no share and repeats none; delivery adds at most the one delivered. */
  lemma SharesConserved(m: Mail, msg: ServerMsg, sock: Sock)
    ensures Shares(Attach(m, sock)) == Shares(m)
    ensures Shares(Deliver(m, msg)) <= Shares(m) + if msg.PeerShare? then 1 else 0
    ensures !msg.PeerShare? ==> Shares(Deliver(m, msg)) == Shares(m)
  {
    SharesStamp(sock, m.pending);
    SharesSentAppend(m.sent, Stamp(sock, m.pending));
    SharesInAppend(m.pending, msg);
    if m.sink.Some? {
      SharesSentAppend(m.sent, [Sent(m.sink.value, msg)]);
      assert SharesSent([Sent(m.sink.value, msg)]) == if msg.PeerShare? then 1 else 0;
    }
  }

  // ---------------------------------------------------------------------------
  // Filtering the index
  // ---------------------------------------------------------------------------

  lemma {:induction false} WithoutIs(ids: seq<Id>, dead: set<Id>)
    ensures |Without(ids, dead)| <= |ids|
    ensures forall x :: x in Without(ids, dead) <==> x in ids && x !in dead
    ensures NoDup(ids) ==> NoDup(Without(ids, dead))
    ensures dead == {} ==> Without(ids, dead) == ids
  {
    if ids != [] {
      WithoutIs(ids[1..], dead);
      assert forall x :: x in ids <==> x == ids[0] || x in ids[1..];
      if NoDup(ids) {
        assert ids[0] !in ids[1..];
        assert NoDup(ids[1..]);
      }
    }
  }

  lemma {:induction false} WithoutTwice(ids: seq<Id>, a: set<Id>, b: set<Id>)
    ensures Without(Without(ids, a), b) == Without(ids, a + b)
  {
    if ids != [] {
      WithoutTwice(ids[1..], a, b);
      if ids[0] !in a {
        assert Without(ids, a)[1..] == Without(ids[1..], a);
      }
    }
  }

  /** Removing in two goes is removing once. */
  lemma RemoveTwice(s: Store, a: set<Id>, b: set<Id>)
    ensures Remove(Remove(s, a), b) == Remove(s, a + b)
  {
    forall k | k in s.slots ensures Without(Without(s.slots[k], a), b) == Without(s.slots[k], a + b) {
      WithoutTwice(s.slots[k], a, b);
      if Without(s.slots[k], a) == [] {
        assert Without(s.slots[k], a + b) == [];
      }
    }
    assert Remove(Remove(s, a), b).slots == Remove(s, a + b).slots;
  }

  /** `t` is `s` with some mailboxes forgotten. */
  predicate RemoveOnly(s: Store, t: Store) {
    t.boxes == s.boxes && t.claims == s.claims && t.open == s.open && t.stored <= s.stored && t.ttl == s.ttl
  }

  lemma RemoveFrame(s: Store, dead: set<Id>)
    ensures RemoveOnly(s, Remove(s, dead)) && Remove(s, dead).stored == s.stored - dead
  {
  }

  // ---------------------------------------------------------------------------
  // Every primitive change keeps the invariant
  // ---------------------------------------------------------------------------

  lemma RemoveKeepsInv(s: Store, dead: set<Id>)
    requires StoreInv(s)
    ensures StoreInv(Remove(s, dead))
  {
    var p := Remove(s, dead);
    forall slot | slot in p.slots ensures SlotOk(p, slot) {
      assert SlotOk(s, slot);
      WithoutIs(s.slots[slot], dead);
      forall i | 0 <= i < |p.slots[slot]| ensures p.slots[slot][i] in p.stored && p.slots[slot][i] in s.boxes && s.boxes[p.slots[slot][i]].slot == slot {
        assert p.slots[slot][i] in s.slots[slot];
      }
    }
    forall id | id in p.stored ensures IndexOk(p, id) {
      assert IndexOk(s, id);
      WithoutIs(SlotIds(s, s.boxes[id].slot), dead);
    }
    forall id | id in p.boxes ensures BoxOk(p, id) && OwnedOk(p, id) {
      assert BoxOk(s, id) && OwnedOk(s, id);
    }
    forall c | c in p.claims ensures ClaimOk(p, c) { assert ClaimOk(s, c); }
    forall c, q | c in p.claims && q in p.claims[c].peers ensures RouteOk(p, c, q) { assert RouteOk(s, c, q); }
    forall i, j | i in p.boxes && j in p.boxes ensures HandleOk(p, i, j) { assert HandleOk(s, i, j); }
  }

  lemma AddBoxKeepsInv(s: Store, slot: Slot, id: Id, now: int)
    requires StoreInv(s) && id !in s.boxes && |SlotIds(s, slot)| < MAX_MAILBOXES_PER_SLOT
    ensures StoreInv(AddBox(s, slot, id, now))
  {
    var p := AddBox(s, slot, id, now);
    assert forall k | k in s.slots :: SlotOk(s, k);
    forall k | k in p.slots ensures SlotOk(p, k) {
      if k == slot {
        var ids := SlotIds(s, slot);
        assert forall i | 0 <= i < |ids| :: ids[i] in s.stored && ids[i] in s.boxes && s.boxes[ids[i]].slot == slot;
      }
    }
    forall x | x in p.stored ensures IndexOk(p, x) {
      if x != id { assert IndexOk(s, x); }
    }
    forall x | x in p.boxes ensures BoxOk(p, x) && OwnedOk(p, x) {
      if x != id { assert BoxOk(s, x) && OwnedOk(s, x); }
    }
    forall c | c in p.claims ensures ClaimOk(p, c) { assert ClaimOk(s, c); }
    forall c, q | c in p.claims && q in p.claims[c].peers ensures RouteOk(p, c, q) { assert RouteOk(s, c, q); }
    forall i, j | i in p.boxes && j in p.boxes ensures HandleOk(p, i, j) {
      if i != id && j != id { assert HandleOk(s, i, j); }
    }
  }

  /** Changing only where a mailbox's mail goes, without a new share, keeps the invariant. */
  lemma BoxMailKeepsInv(s: Store, id: Id, mail: Mail)
    requires StoreInv(s) && id in s.boxes && Shares(mail) == Shares(s.boxes[id].mail)
    ensures StoreInv(SetBoxMail(s, id, mail))
  {
    hide Shares;
    var p := SetBoxMail(s, id, mail);
    forall x | x in p.boxes ensures BoxOk(p, x) && OwnedOk(p, x) { assert BoxOk(s, x) && OwnedOk(s, x); }
    forall k | k in p.slots ensures SlotOk(p, k) { assert SlotOk(s, k); }
    forall x | x in p.stored ensures IndexOk(p, x) { assert IndexOk(s, x); }
    forall c | c in p.claims ensures ClaimOk(p, c) { assert ClaimOk(s, c); }
    forall c, q | c in p.claims && q in p.claims[c].peers ensures RouteOk(p, c, q) { assert RouteOk(s, c, q); }
    forall i, j | i in p.boxes && j in p.boxes ensures HandleOk(p, i, j) { assert HandleOk(s, i, j); }
  }

  /** Changing a claim's mail, clock or routes keeps the invariant, as long as a sink is never lost,
    * the deadline never shortened under a mailbox it owns, and only routes to forgotten mailboxes go. */
  lemma ClaimChangeKeepsInv(s: Store, c: Id, next: Claim)
    requires StoreInv(s) && c in s.claims && next.id == c
    requires s.claims[c].mail.sink.Some? ==> next.mail.sink.Some?
    requires next.expiresAt == s.claims[c].expiresAt || s.claims[c].mail.sink.None?
    requires forall p | p in next.peers :: p in s.claims[c].peers && next.peers[p] == s.claims[c].peers[p]
    requires forall p | p in s.claims[c].peers && p !in next.peers :: s.claims[c].peers[p] !in s.stored
    requires next.mail.sink.None? ==> next.peers == map[]
    ensures StoreInv(s.(claims := s.claims[c := next]))
  {
    var t := s.(claims := s.claims[c := next]);
    assert ClaimOk(s, c);
    forall x | x in t.boxes ensures BoxOk(t, x) && OwnedOk(t, x) { assert BoxOk(s, x) && OwnedOk(s, x); }
    forall k | k in t.slots ensures SlotOk(t, k) { assert SlotOk(s, k); }
    forall x | x in t.stored ensures IndexOk(t, x) { assert IndexOk(s, x); }
    forall d | d in t.claims ensures ClaimOk(t, d) { assert ClaimOk(s, d); }
    forall d, q | d in t.claims && q in t.claims[d].peers ensures RouteOk(t, d, q) { assert RouteOk(s, d, q); }
    forall i, j | i in t.boxes && j in t.boxes ensures HandleOk(t, i, j) { assert HandleOk(s, i, j); }
  }

  lemma OpenKeepsInv(s: Store, open: set<Id>)
    requires StoreInv(s) && open <= s.claims.Keys
    ensures StoreInv(s.(open := open))
  {
    var t := s.(open := open);
    forall x | x in t.boxes ensures BoxOk(t, x) && OwnedOk(t, x) { assert BoxOk(s, x) && OwnedOk(s, x); }
    forall k | k in t.slots ensures SlotOk(t, k) { assert SlotOk(s, k); }
    forall x | x in t.stored ensures IndexOk(t, x) { assert IndexOk(s, x); }
    forall d | d in t.claims ensures ClaimOk(t, d) { assert ClaimOk(s, d); }
    forall d, q | d in t.claims && q in t.claims[d].peers ensures RouteOk(t, d, q) { assert RouteOk(s, d, q); }
    forall i, j | i in t.boxes && j in t.boxes ensures HandleOk(t, i, j) { assert HandleOk(s, i, j); }
  }

  lemma CreateClaimKeepsInv(s: Store, slot: Slot, c: Id, now: int)
    requires StoreInv(s) && c !in s.claims
    ensures StoreInv(CreateClaim(s, slot, c, now))
  {
    var t := CreateClaim(s, slot, c, now);
    forall x | x in t.boxes ensures BoxOk(t, x) && OwnedOk(t, x) { assert BoxOk(s, x) && OwnedOk(s, x); }
    forall k | k in t.slots ensures SlotOk(t, k) { assert SlotOk(s, k); }
    forall x | x in t.stored ensures IndexOk(t, x) { assert IndexOk(s, x); }
    forall d | d in t.claims ensures ClaimOk(t, d) { if d != c { assert ClaimOk(s, d); } }
    forall d, q | d in t.claims && q in t.claims[d].peers ensures RouteOk(t, d, q) { if d != c { assert RouteOk(s, d, q); } }
    forall i, j | i in t.boxes && j in t.boxes ensures HandleOk(t, i, j) { assert HandleOk(s, i, j); }
  }
}

/** The mailbox store as the source has it: one object whose maps change in place
  (apps/api/src/mailbox.ts).

  Every method is proved against the function of the same name in `Mailboxes`.
  `boxes` and `claimRecords` are the record objects themselves, which a socket
  handler may still hold after the store's own maps have dropped their keys.
 */
module MailboxObjects {
  import opened Options
  import opened Mailboxes

  // ---------------------------------------------------------------------------
  // What removing a single mailbox comes down to
  // ---------------------------------------------------------------------------

  lemma {:induction false} WithoutAbsent(ids: seq<Id>, dead: set<Id>)
    requires forall x | x in ids :: x !in dead
    ensures Without(ids, dead) == ids
  {
    if ids != [] {
      WithoutAbsent(ids[1..], dead);
    }
  }

  lemma RemoveElsewhere(s: Store, id: Id, k: Slot)
    requires StoreInv(s) && k in s.slots && (id in s.stored ==> id in s.boxes && s.boxes[id].slot != k)
    ensures Without(s.slots[k], {id}) == s.slots[k] && s.slots[k] != []
  {
    assert SlotOk(s, k);
    WithoutAbsent(s.slots[k], {id});
  }

  /** Removing a mailbox the store does not have changes nothing. */
  lemma RemoveStranger(s: Store, id: Id)
    requires StoreInv(s) && id !in s.stored
    ensures Remove(s, {id}) == s
  {
    hide StoreInv, Without;
    forall k | k in s.slots ensures Without(s.slots[k], {id}) == s.slots[k] && s.slots[k] != [] {
      RemoveElsewhere(s, id, k);
    }
    assert Remove(s, {id}).slots == s.slots;
  }

  function DropFromSlot(slots: map<Slot, seq<Id>>, slot: Slot, id: Id): map<Slot, seq<Id>>
    requires slot in slots
  {
    var rest := Without(slots[slot], {id});
    if rest == [] then slots - {slot} else slots[slot := rest]
  }

  /** In an indexed store only the mailbox's own slot list changes. */
  lemma RemoveStored(s: Store, id: Id)
    requires StoreInv(s) && id in s.stored
    ensures id in s.boxes && s.boxes[id].slot in s.slots
    ensures Remove(s, {id}) == s.(stored := s.stored - {id}, slots := DropFromSlot(s.slots, s.boxes[id].slot, id))
  {
    assert IndexOk(s, id);
    hide StoreInv, Without;
    var slot := s.boxes[id].slot;
    forall k | k in s.slots && k != slot ensures Without(s.slots[k], {id}) == s.slots[k] && s.slots[k] != [] {
      RemoveElsewhere(s, id, k);
    }
    assert Remove(s, {id}).slots == DropFromSlot(s.slots, slot, id);
  }

  lemma {:induction false} WithoutAppend(ids: seq<Id>, x: Id, dead: set<Id>)
    ensures Without(ids + [x], dead) == if x in dead then Without(ids, dead) else Without(ids, dead) + [x]
  {
    if ids != [] {
      assert (ids + [x])[1..] == ids[1..] + [x];
      WithoutAppend(ids[1..], x, dead);
    }
  }

  lemma {:induction false} UnclaimedAppend(s: Store, ids: seq<Id>, x: Id)
    ensures Unclaimed(s, ids + [x]) == if x in s.boxes && s.boxes[x].claimedBy == None then Unclaimed(s, ids) + [x] else Unclaimed(s, ids)
  {
    if ids != [] {
      assert (ids + [x])[1..] == ids[1..] + [x];
      UnclaimedAppend(s, ids[1..], x);
    }
  }

  lemma {:induction false} StampAppend(sock: Sock, msgs: seq<ServerMsg>, msg: ServerMsg)
    ensures Stamp(sock, msgs + [msg]) == Stamp(sock, msgs) + [Sent(sock, msg)]
  {
    if msgs != [] {
      assert (msgs + [msg])[1..] == msgs[1..] + [msg];
      StampAppend(sock, msgs[1..], msg);
    }
  }

  /** The lapsed mailboxes among the first `n` of a list. */
  function LapsedAmong(s: Store, ids: seq<Id>, now: int): set<Id> {
    set id | id in ids && Lapsed(s, id, now)
  }

  lemma LapsedStep(s: Store, ids: seq<Id>, i: nat, now: int)
    requires i < |ids|
    ensures LapsedAmong(s, ids[..i + 1], now) ==
            if Lapsed(s, ids[i], now) then LapsedAmong(s, ids[..i], now) + {ids[i]} else LapsedAmong(s, ids[..i], now)
  {
    assert ids[..i + 1] == ids[..i] + [ids[i]];
  }

  lemma SlotIdStored(s: Store, slot: Slot, i: nat)
    requires StoreInv(s) && i < |SlotIds(s, slot)|
    ensures var ids := SlotIds(s, slot);
            ids[i] in s.stored && ids[i] in s.boxes && s.boxes[ids[i]].slot == slot && ids[i] !in ids[..i]
  {
    assert SlotOk(s, slot);
  }

  lemma {:induction false} UnclaimedFrame(s: Store, t: Store, ids: seq<Id>)
    requires s.boxes == t.boxes
    ensures Unclaimed(s, ids) == Unclaimed(t, ids)
  {
    if ids != [] {
      UnclaimedFrame(s, t, ids[1..]);
    }
  }

  lemma OpenSubset(s: Store, open: set<Id>)
    requires StoreInv(s) && open <= s.open
    ensures StoreInv(s.(open := open))
  {
    OpenKeepsInv(s, open);
  }

  lemma PurgedIds(s: Store, slot: Slot, dead: set<Id>)
    ensures SlotIds(Remove(s, dead), slot) == Without(SlotIds(s, slot), dead)
  {
  }

  lemma RemoveNone(s: Store)
    requires StoreInv(s)
    ensures Remove(s, {}) == s
  {
    hide Without;
    forall k | k in s.slots ensures Without(s.slots[k], {}) == s.slots[k] && s.slots[k] != [] {
      assert SlotOk(s, k);
      WithoutIs(s.slots[k], {});
    }
    assert Remove(s, {}).slots == s.slots;
  }

  class MailboxStore {
    const ttl: int
    var boxes: map<Id, Box>
    var claimRecords: map<Id, Claim>
    /** keys of the `mailboxes` map */
    var mailboxes: set<Id>
    /** keys of the `claims` map */
    var claims: set<Id>
    /** slot to mailbox ids, kept alongside so fan-out is not a full scan */
    var bySlot: map<Slot, seq<Id>>

    constructor (ttl: int)
      ensures View() == NewStore(ttl)
    {
      this.ttl := ttl;
      boxes, claimRecords, mailboxes, claims, bySlot := map[], map[], {}, {}, map[];
    }

    ghost function View(): Store
      reads this
    {
      Store(ttl, boxes, mailboxes, bySlot, claimRecords, claims)
    }

    method RemoveMailbox(id: Id)
      requires StoreInv(View())
      modifies this
      ensures View() == Remove(old(View()), {id}) && StoreInv(View())
    {
      hide StoreInv, Remove, Without;
      RemoveKeepsInv(View(), {id});
      if id !in mailboxes {
        RemoveStranger(View(), id);
        return;
      }
      RemoveStored(View(), id);
      var slot := boxes[id].slot;
      mailboxes := mailboxes - {id};
      var rest := Without(bySlot[slot], {id});
      if rest == [] {
        bySlot := bySlot - {slot};
      } else {
        bySlot := bySlot[slot := rest];
      }
    }

    method CreateMailbox(slot: Slot, id: Id, now: int) returns (created: bool)
      requires StoreInv(View()) && id !in boxes
      modifies this
      ensures (View(), created) == Mailboxes.CreateMailbox(old(View()), slot, id, now)
    {
      hide StoreInv, Remove;
      var liveOnSlot := PurgeSlot(slot, now);
      if liveOnSlot >= MAX_MAILBOXES_PER_SLOT {
        return false;
      }
      if |mailboxes| >= MAX_LIVE_MAILBOXES {
        return false;
      }
      boxes := boxes[id := Box(id, slot, now, now + ttl, None, None, NO_MAIL)];
      mailboxes := mailboxes + {id};
      var slotIds := if slot in bySlot then bySlot[slot] else [];
      bySlot := bySlot[slot := slotIds + [id]];
      return true;
    }

    /** The loop `createMailbox` opens with: expire before counting. */
    method PurgeSlot(slot: Slot, now: int) returns (liveOnSlot: nat)
      requires StoreInv(View())
      modifies this
      ensures StoreInv(View()) && View() == Remove(old(View()), LapsedOn(old(View()), slot, now))
      ensures liveOnSlot == |SlotIds(View(), slot)|
    {
      hide StoreInv, Remove;
      ghost var s := View();
      var ids := if slot in bySlot then bySlot[slot] else [];
      liveOnSlot := 0;
      RemoveNone(s);
      assert LapsedAmong(s, ids[..0], now) == {};
      for i := 0 to |ids|
        invariant StoreInv(View()) && View() == Remove(s, LapsedAmong(s, ids[..i], now))
        invariant liveOnSlot == |Without(ids[..i], LapsedAmong(s, ids, now))|
      {
        LapsedStep(s, ids, i, now);
        RemoveTwice(s, LapsedAmong(s, ids[..i], now), {ids[i]});
        assert ids[..i + 1] == ids[..i] + [ids[i]];
        WithoutAppend(ids[..i], ids[i], LapsedAmong(s, ids, now));
        SlotIdStored(s, slot, i);
        RemoveFrame(s, LapsedAmong(s, ids[..i], now));
        if ids[i] !in mailboxes || boxes[ids[i]].expiresAt <= now {
          RemoveMailbox(ids[i]);
        } else {
          liveOnSlot := liveOnSlot + 1;
        }
      }
      assert ids[..|ids|] == ids;
      assert LapsedAmong(s, ids, now) == LapsedOn(s, slot, now);
      PurgedIds(s, slot, LapsedOn(s, slot, now));
    }

    method GetMailbox(id: Id, now: int) returns (live: bool)
      requires StoreInv(View())
      modifies this
      ensures (View(), live) == Mailboxes.GetMailbox(old(View()), id, now)
      ensures StoreInv(View()) && (live ==> id in boxes)
    {
      if id !in mailboxes {
        return false;
      }
      assert IndexOk(View(), id);
      if boxes[id].expiresAt <= now {
        RemoveMailbox(id);
        return false;
      }
      return true;
    }

    /** Every mailbox on a slot that is live and unclaimed, dropping the lapsed ones on the way. */
    method LiveMailboxesForSlot(slot: Slot, now: int) returns (live: seq<Id>)
      requires StoreInv(View())
      modifies this
      ensures (View(), live) == Mailboxes.LiveMailboxesForSlot(old(View()), slot, now)
      ensures StoreInv(View())
    {
      hide StoreInv, Remove;
      ghost var s := View();
      var ids := if slot in bySlot then bySlot[slot] else [];
      live := [];
      RemoveNone(s);
      assert LapsedAmong(s, ids[..0], now) == {};
      for i := 0 to |ids|
        invariant StoreInv(View()) && View() == Remove(s, LapsedAmong(s, ids[..i], now))
        invariant live == Unclaimed(s, Without(ids[..i], LapsedAmong(s, ids, now)))
      {
        LapsedStep(s, ids, i, now);
        RemoveTwice(s, LapsedAmong(s, ids[..i], now), {ids[i]});
        assert ids[..i + 1] == ids[..i] + [ids[i]];
        WithoutAppend(ids[..i], ids[i], LapsedAmong(s, ids, now));
        UnclaimedAppend(s, Without(ids[..i], LapsedAmong(s, ids, now)), ids[i]);
        SlotIdStored(s, slot, i);
        RemoveFrame(s, LapsedAmong(s, ids[..i], now));
        if ids[i] !in mailboxes || boxes[ids[i]].expiresAt <= now {
          RemoveMailbox(ids[i]);
        } else if boxes[ids[i]].claimedBy.None? {
          live := live + [ids[i]];
        }
      }
      assert ids[..|ids|] == ids;
      assert LapsedAmong(s, ids, now) == LapsedOn(s, slot, now);
      PurgedIds(s, slot, LapsedOn(s, slot, now));
      RemoveFrame(s, LapsedOn(s, slot, now));
      UnclaimedFrame(s, View(), SlotIds(View(), slot));
    }

    method ClaimMailbox(id: Id, claimId: Id, peer: Id) returns (won: bool)
      requires id in boxes
      modifies this
      ensures (View(), won) == Mailboxes.ClaimMailbox(old(View()), id, claimId, peer)
    {
      if boxes[id].claimedBy.Some? {
        return false;
      }
      boxes := boxes[id := boxes[id].(claimedBy := Some(claimId), peer := Some(peer))];
      return true;
    }

    method CreateClaim(slot: Slot, c: Id, now: int)
      modifies this
      ensures View() == Mailboxes.CreateClaim(old(View()), slot, c, now)
    {
      claimRecords := claimRecords[c := Claim(c, slot, now, now + CLAIM_ATTACH_TTL_MS, NO_MAIL, map[])];
      claims := claims + {c};
    }

    method GetClaim(c: Id, now: int) returns (live: bool)
      requires claims <= claimRecords.Keys
      modifies this
      ensures (View(), live) == Mailboxes.GetClaim(old(View()), c, now)
    {
      if c !in claims {
        return false;
      }
      if claimRecords[c].expiresAt <= now {
        claims := claims - {c};
        return false;
      }
      return true;
    }

    method ExtendClaim(c: Id, now: int)
      requires c in claimRecords
      modifies this
      ensures View() == Mailboxes.ExtendClaim(old(View()), c, now)
    {
      claimRecords := claimRecords[c := claimRecords[c].(expiresAt := now + ttl)];
    }

    method DestroyClaim(c: Id)
      modifies this
      ensures View() == Mailboxes.DestroyClaim(old(View()), c)
    {
      claims := claims - {c};
    }

    method DeliverToMailbox(id: Id, msg: ServerMsg)
      requires id in boxes
      modifies this
      ensures View() == ToBox(old(View()), id, msg)
    {
      var mail := boxes[id].mail;
      if mail.sink.Some? {
        mail := mail.(sent := mail.sent + [Sent(mail.sink.value, msg)]);
      } else if |mail.pending| < MAX_PENDING {
        mail := mail.(pending := mail.pending + [msg]);
      }
      boxes := boxes[id := boxes[id].(mail := mail)];
    }

    method DeliverToClaim(c: Id, msg: ServerMsg)
      requires c in claimRecords
      modifies this
      ensures View() == ToClaim(old(View()), c, msg)
    {
      var mail := claimRecords[c].mail;
      if mail.sink.Some? {
        mail := mail.(sent := mail.sent + [Sent(mail.sink.value, msg)]);
      } else if |mail.pending| < MAX_PENDING {
        mail := mail.(pending := mail.pending + [msg]);
      }
      claimRecords := claimRecords[c := claimRecords[c].(mail := mail)];
    }

    method AttachToMailbox(id: Id, sock: Sock)
      requires id in boxes
      modifies this
      ensures View() == SetBoxMail(old(View()), id, Attach(old(boxes)[id].mail, sock))
    {
      var mail := Flush(boxes[id].mail, sock);
      boxes := boxes[id := boxes[id].(mail := mail)];
    }

    method AttachToClaim(c: Id, sock: Sock)
      requires c in claimRecords
      modifies this
      ensures View() == SetClaimMail(old(View()), c, Attach(old(claimRecords)[c].mail, sock))
    {
      var mail := Flush(claimRecords[c].mail, sock);
      claimRecords := claimRecords[c := claimRecords[c].(mail := mail)];
    }

    method Sweep(now: int)
      requires StoreInv(View())
      modifies this
      ensures View() == SweepStore(old(View()), now) && StoreInv(View())
    {
      hide StoreInv, Remove;
      ghost var s := View();
      SweepMailboxes(now);
      ghost var p := View();
      var rest := claims;
      while rest != {}
        invariant View() == p.(open := claims)
        invariant rest <= p.open
        invariant claims == set c | c in p.open && (c in rest || !(c in p.claims && p.claims[c].expiresAt <= now))
        decreases |rest|
      {
        var c :| c in rest;
        rest := rest - {c};
        if c in claimRecords && claimRecords[c].expiresAt <= now {
          claims := claims - {c};
        }
      }
      OpenSubset(p, claims);
    }

    method SweepMailboxes(now: int)
      requires StoreInv(View())
      modifies this
      ensures StoreInv(View()) && View() == Remove(old(View()), set id | id in old(mailboxes) && Lapsed(old(View()), id, now))
    {
      hide StoreInv, Remove;
      ghost var s := View();
      ghost var dead: set<Id> := {};
      var rest := mailboxes;
      RemoveNone(s);
      while rest != {}
        invariant StoreInv(View()) && View() == Remove(s, dead)
        invariant rest <= s.stored
        invariant dead == set id | id in s.stored && id !in rest && Lapsed(s, id, now)
        decreases |rest|
      {
        var id :| id in rest;
        rest := rest - {id};
        RemoveTwice(s, dead, {id});
        RemoveFrame(s, dead);
        if id in boxes && boxes[id].expiresAt <= now {
          RemoveMailbox(id);
          dead := dead + {id};
        }
      }
      assert dead == set id | id in s.stored && Lapsed(s, id, now);
    }
  }

  /** Attach a socket and hand it, in order, everything that was buffered. */
  method Flush(mail: Mail, sock: Sock) returns (r: Mail)
    ensures r == Attach(mail, sock)
  {
    var sent := mail.sent;
    for i := 0 to |mail.pending|
      invariant sent == mail.sent + Stamp(sock, mail.pending[..i])
    {
      assert mail.pending[..i + 1] == mail.pending[..i] + [mail.pending[i]];
      StampAppend(sock, mail.pending[..i], mail.pending[i]);
      sent := sent + [Sent(sock, mail.pending[i])];
    }
    assert mail.pending[..|mail.pending|] == mail.pending;
    r := Mail(Some(sock), [], sent);
  }
}
