/** The broker's pairing handlers as functions on its state (apps/api/src/broker.ts).

  Each function is one callback: the process is single-threaded, so a callback is
  one atomic step. `now` is the step's clock reading, and every id, peer handle and
  socket number is supplied from outside.
 */
module BrokerState {
  import opened Options
  import opened Mailboxes
  import RateLimit

  datatype Payload = Payload(share: Blob, ad: Blob, sid: Blob)

  datatype ClientMsg =
    | Share(peer: Id, share: Blob, ad: Blob)
    | Confirm(peer: Id, tag: Blob)
    | Establish(peer: Id, sealed: Blob)
    | Close(about: Option<Id>)
    | Malformed

  datatype State = State(st: Store, payloads: map<Id, Payload>,
                         slotLimit: RateLimit.Limiter, globalLimit: RateLimit.Limiter)

  /** What a dialling socket learns: it is attached, or it is closed, perhaps after one reply. */
  datatype Outcome = Attached | Rejected(reply: Option<ServerMsg>)

  const GLOBAL_KEY := "*"
  const ZERO_SID: Blob := "00000000000000000000000000000000"

  function SlotKey(slot: Slot): RateLimit.Key {
    "slot:" + slot
  }

  function DropClaim(b: State, c: Id): State {
    b.(st := DestroyClaim(b.st, c), payloads := b.payloads - {c})
  }

  function PairClaim(b: State, c: Id, slot: Slot, payload: Payload, now: int): State {
    b.(st := CreateClaim(b.st, slot, c, now), payloads := b.payloads[c := payload])
  }

  // ---------------------------------------------------------------------------
  // The mailbox socket
  // ---------------------------------------------------------------------------

  function AttachMailbox(b: State, id: Id, sock: Sock, now: int): (State, Outcome)
    requires id in b.st.stored ==> id in b.st.boxes
  {
    var (s, live) := GetMailbox(b.st, id, now);
    if !live then (b.(st := s), Rejected(Some(Failed(None, Expired))))
    else if s.boxes[id].mail.sink.Some? then (b.(st := s), Rejected(None))
    else
      var box := s.boxes[id];
      var t := SetBoxMail(s, id, Mailboxes.Attach(box.mail, sock));
      (b.(st := ToBox(t, id, Ready(id, box.slot, box.expiresAt))), Attached)
  }

  /** The claim a mailbox was burned by, if the two still agree. */
  function ClaimFor(s: Store, id: Id, now: int): (Store, Option<Id>)
    requires id in s.boxes
  {
    var box := s.boxes[id];
    if box.claimedBy.None? || box.peer.None? then (s, None)
    else
      var c := box.claimedBy.value;
      var (t, live) := GetClaim(s, c, now);
      if live && c in t.claims && box.peer.value in t.claims[c].peers && t.claims[c].peers[box.peer.value] == id
      then (t, Some(c)) else (t, None)
  }

  /** The sid echoed to a claimant: its own, or zeros when the broker no longer has it. */
  function SidFor(b: State, c: Id): Blob {
    if c in b.payloads then b.payloads[c].sid else ZERO_SID
  }

  /** One frame from a mailbox holder; also whether it has now said its last word, and whether the socket is closed. */
  function MailboxMessage(b: State, id: Id, established: bool, msg: ClientMsg, now: int): (State, bool, bool)
    requires id in b.st.boxes
  {
    var box := b.st.boxes[id];
    if msg.Malformed? then (b, established, true)
    else if msg.Close? then
      var (s, oc) := ClaimFor(b.st, id, now);
      var t := if oc.Some?
               then ToClaim(s, oc.value, Failed(box.peer, if msg.about.Some? then ConfirmationFailed else PeerGone))
               else s;
      (b.(st := Remove(t, {id})), established, true)
    else if box.peer != Some(msg.peer) then (b, established, true)
    else
      var (s, oc) := ClaimFor(b.st, id, now);
      if oc.None? then (b.(st := ToBox(s, id, Failed(box.peer, PeerGone))), established, false)
      else
        var c := oc.value;
        if msg.Share? then
          (b.(st := ToClaim(s, c, PeerShare(msg.peer, msg.share, msg.ad, SidFor(b, c)))), established, false)
        else if msg.Confirm? then
          (b.(st := ToClaim(s, c, PeerConfirm(msg.peer, msg.tag))), true, false)
        else
          var t := Remove(ToClaim(s, c, Established(msg.peer, msg.sealed)), {id});
          (b.(st := SetPeers(t, c, t.claims[c].peers - {msg.peer})), true, false)
  }

  function MailboxClosed(b: State, id: Id, established: bool): State
    requires id in b.st.boxes
  {
    if !established then b.(st := Remove(b.st, {id}))
    else b.(st := SetBoxMail(b.st, id, b.st.boxes[id].mail.(sink := None)))
  }

  // ---------------------------------------------------------------------------
  // The claim socket
  // ---------------------------------------------------------------------------

  /** Charge the per-slot budget, then the global one. A refusal by the second still spent the first. */
  function ChargeBudgets(b: State, slot: Slot, now: int): (State, bool) {
    var (sl, slotOk) := RateLimit.Take(b.slotLimit, SlotKey(slot), now);
    if !slotOk then (b.(slotLimit := sl), false)
    else
      var (gl, globalOk) := RateLimit.Take(b.globalLimit, GLOBAL_KEY, now);
      (b.(slotLimit := sl, globalLimit := gl), globalOk)
  }

  /** Offer one mailbox to an attached claim. A mailbox already spent is simply not part of it. */
  function OfferOne(s: Store, c: Id, id: Id, peer: Id, payload: Payload): (r: Store)
    requires c in s.claims && id in s.boxes
    ensures r.boxes.Keys == s.boxes.Keys && r.claims.Keys == s.claims.Keys
  {
    var (t, won) := ClaimMailbox(s, id, c, peer);
    if !won then t
    else
      var u := SetPeers(t, c, t.claims[c].peers[peer := id]);
      ToBox(u, id, PeerShare(peer, payload.share, payload.ad, payload.sid))
  }

  function FanOut(s: Store, c: Id, ids: seq<Id>, handles: seq<Id>, payload: Payload): (r: Store)
    requires c in s.claims && forall id | id in ids :: id in s.boxes
    ensures r.boxes.Keys == s.boxes.Keys && r.claims.Keys == s.claims.Keys
    decreases |ids|
  {
    if ids == [] || handles == [] then s
    else FanOut(OfferOne(s, c, ids[0], handles[0], payload), c, ids[1..], handles[1..], payload)
  }

  /** The claim's sink attached, and its deadline extended from fifteen seconds to the full TTL. */
  function Extended(s: Store, c: Id, sock: Sock, now: int): Store
    requires c in s.claims
  {
    ExtendClaim(SetClaimMail(s, c, Mailboxes.Attach(s.claims[c].mail, sock)), c, now)
  }

  /** What attaching does once the budgets allow it: the sink, the full TTL, and the fan-out. */
  function Engage(b: State, c: Id, sock: Sock, handles: seq<Id>, now: int): (r: State)
    requires c in b.st.claims
    ensures r.st.claims.Keys == b.st.claims.Keys && r.st.boxes.Keys == b.st.boxes.Keys
  {
    var s := Extended(b.st, c, sock, now);
    if c !in b.payloads then b.(st := s)
    else
      var (t, ids) := LiveMailboxesForSlot(s, s.claims[c].slot, now);
      UnclaimedIn(t, SlotIds(t, s.claims[c].slot));
      b.(st := FanOut(t, c, ids, handles, b.payloads[c]))
  }

  function AttachClaim(b: State, c: Id, sock: Sock, handles: seq<Id>, now: int): (State, Outcome)
    requires c in b.st.open ==> c in b.st.claims
  {
    var (s, live) := GetClaim(b.st, c, now);
    if !live then (b.(st := s), Rejected(Some(Failed(None, Expired))))
    else if s.claims[c].mail.sink.Some? then (b, Rejected(None))
    else
      var (charged, ok) := ChargeBudgets(b, s.claims[c].slot, now);
      if !ok then (DropClaim(charged, c), Rejected(Some(Failed(None, RateLimited))))
      else
        var engaged := Engage(charged, c, sock, handles, now);
        if engaged.st.claims[c].peers == map[] then (DropClaim(engaged, c), Rejected(Some(Failed(None, PeerGone))))
        else (engaged, Attached)
  }

  lemma {:induction false} UnclaimedIn(s: Store, ids: seq<Id>)
    ensures forall id | id in Unclaimed(s, ids) :: id in ids && id in s.boxes && s.boxes[id].claimedBy.None?
    ensures |Unclaimed(s, ids)| <= |ids|
    ensures NoDup(ids) ==> NoDup(Unclaimed(s, ids))
  {
    if ids != [] {
      UnclaimedIn(s, ids[1..]);
      assert NoDup(ids) ==> NoDup(ids[1..]) && ids[0] !in ids[1..];
    }
  }

  /** The mailbox a claim owns under a handle: the routing table and the mailbox must agree. */
  function OwnedMailbox(s: Store, c: Id, peer: Id, now: int): (Store, Option<Id>)
    requires c in s.claims
  {
    if peer !in s.claims[c].peers then (s, None)
    else
      var id := s.claims[c].peers[peer];
      var (t, live) := GetMailbox(s, id, now);
      if live && id in t.boxes && t.boxes[id].claimedBy == Some(c) then (t, Some(id)) else (t, None)
  }

  /** Burn the mailbox a claim owns under a handle, telling its holder. */
  function BurnOwned(s: Store, c: Id, peer: Id, now: int): Store
    requires c in s.claims
  {
    var (t, owned) := OwnedMailbox(s, c, peer, now);
    if owned.Some? then Remove(ToBox(t, owned.value, Failed(Some(peer), ConfirmationFailed)), {owned.value})
    else t
  }

  /** One frame from a claimant, and whether its socket is closed. */
  function ClaimMessage(b: State, c: Id, msg: ClientMsg, now: int): (State, bool)
    requires c in b.st.claims
  {
    if msg.Malformed? then (b, true)
    else if msg.Close? then
      if msg.about.None? then (DropClaim(b, c), true)
      else
        var s := BurnOwned(b.st, c, msg.about.value, now);
        (b.(st := SetPeers(s, c, s.claims[c].peers - {msg.about.value})), false)
    else
      var (s, owned) := OwnedMailbox(b.st, c, msg.peer, now);
      if owned.None? then (b.(st := ToClaim(s, c, Failed(Some(msg.peer), PeerGone))), false)
      else if msg.Share? then (b.(st := s), true)
      else if msg.Confirm? then (b.(st := ToBox(s, owned.value, PeerConfirm(msg.peer, msg.tag))), false)
      else
        var t := Remove(ToBox(s, owned.value, Established(msg.peer, msg.sealed)), {owned.value});
        (b.(st := SetPeers(t, c, t.claims[c].peers - {msg.peer})), false)
  }

  function BurnAll(s: Store, c: Id, order: seq<Id>, now: int): (r: Store)
    requires c in s.claims
    decreases |order|
  {
    if order == [] then s
    else BurnAll(BurnOwned(s, c, order[0], now), c, order[1..], now)
  }

  /** The claim's socket closed: every mailbox it still owns dies, in whatever order its handles are walked. */
  function ClaimClosed(b: State, c: Id, order: seq<Id>, now: int): State
    requires c in b.st.claims
  {
    DropClaim(b.(st := BurnAll(b.st, c, order, now)), c)
  }

  // ---------------------------------------------------------------------------
  // The sweeper
  // ---------------------------------------------------------------------------

  /** Drop payloads whose claim the store no longer has; asking it expires claims as a side effect. */
  function SweepPayloads(b: State, now: int): State {
    var dead := set c | c in b.payloads && c in b.st.claims && b.st.claims[c].expiresAt <= now;
    var s := b.st.(open := b.st.open - dead);
    b.(st := s, payloads := map c | c in b.payloads && c in s.open :: b.payloads[c])
  }

  function SweepAll(b: State, now: int, later: int): State {
    SweepPayloads(b.(st := SweepStore(b.st, now)), later)
  }
}
