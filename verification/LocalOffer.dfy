/** The one local pairing offer a machine shows, and its redemption (apps/relay/src/pairing-local.ts).

  An offer is a QR nonce and typed digits. Redeeming runs to the question at the machine; the answer comes
  later, and other redeems may run in between. Offers are numbered as they are armed, so that the log can
  say which one each entry is about; the code itself has no such number.
 */
module LocalOffer {
  import opened Options

  const MAX_CODE_ATTEMPTS := 5
  const SESSION_TTL_MS := 24 * 60 * 60 * 1000

  datatype Offer = Offer(number: nat, nonceKey: string, codeKey: string, expiresAt: int, wrong: nat)

  datatype Via = Scan | Code

  datatype Outcome = Paired | Refused | Burned

  datatype Entry =
    | Armed(number: nat)
    | Guessed(number: nat)
    | Spent(number: nat, outcome: Outcome)
    | Issued(number: nat, token: string, expiresAt: int)

  /** A redeem waiting for the machine's answer. */
  datatype Waiting = Waiting(number: nat, now: int)

  /** `digest` is the hash secrets are held under; `gated` says whether there is anyone to ask. */
  datatype Config = Config(digest: string -> string, gated: bool)

  datatype State = State(offer: Option<Offer>, armed: nat, waiting: map<nat, Waiting>, nextWait: nat, log: seq<Entry>)

  const START := State(None, 0, map[], 0, [])

  predicate IsDigit(ch: char) { '0' <= ch <= '9' }

  predicate IsSpace(ch: char) {
    ch in {' ', '\t', '\n', '\U{000B}', '\U{000C}', '\r', '\U{00A0}', '\U{1680}', '\U{2028}', '\U{2029}', '\U{202F}', '\U{205F}', '\U{3000}', '\U{FEFF}'}
    || '\U{2000}' <= ch <= '\U{200A}'
  }

  function Stripped(s: string): string {
    if s == "" then "" else (if IsSpace(s[0]) || s[0] == '-' then "" else [s[0]]) + Stripped(s[1..])
  }

  /** The digits typed, with spaces and dashes taken out, if that is all there is. */
  function NormalizeTyped(input: string): Option<string> {
    var digits := Stripped(input);
    if digits != "" && forall i | 0 <= i < |digits| :: IsDigit(digits[i]) then Some(digits) else None
  }

  datatype Credential = Credential(nonce: Option<string>, code: Option<string>)

  function Typed(cred: Credential): Option<string> {
    NormalizeTyped(if cred.code.Some? then cred.code.value else "")
  }

  function ResolveVia(c: Config, offer: Offer, cred: Credential): Option<Via> {
    if cred.nonce.Some? && cred.nonce.value != "" && c.digest(cred.nonce.value) == offer.nonceKey then Some(Scan)
    else if Typed(cred).Some? && c.digest(Typed(cred).value) == offer.codeKey then Some(Code)
    else None
  }

  function Note(s: State, e: Entry): State {
    s.(log := s.log + [e])
  }

  /** Arming replaces whatever was live. A code that is not digits is refused. */
  function Arm(c: Config, s: State, code: string, nonce: string, ttl: int, now: int): (State, bool) {
    match NormalizeTyped(code)
    case None => (s, false)
    case Some(digits) =>
      (Note(s.(offer := Some(Offer(s.armed, c.digest(nonce), c.digest(digits), now + ttl, 0)), armed := s.armed + 1), Armed(s.armed)), true)
  }

  datatype Answer = Invalid | RefusedAnswer | Session(token: string, expiresAt: int)

  function Settle(s: State, number: nat, now: int, allowed: bool, token: string): (State, Answer) {
    if !allowed then (Note(s, Spent(number, Refused)), RefusedAnswer)
    else (Note(Note(s, Issued(number, token, now + SESSION_TTL_MS)), Spent(number, Paired)), Session(token, now + SESSION_TTL_MS))
  }

  /** Up to the question. With nobody to ask the answer is yes at once; otherwise the redeem waits. */
  function Redeem(c: Config, s: State, cred: Credential, now: int, token: string): (State, Option<Answer>) {
    if s.offer.None? || s.offer.value.expiresAt <= now then (s.(offer := None), Some(Invalid))
    else
      var current := s.offer.value;
      if ResolveVia(c, current, cred).None? then
        if Typed(cred).None? then (s, Some(Invalid))
        else
          var t := Note(s.(offer := Some(current.(wrong := current.wrong + 1))), Guessed(current.number));
          if current.wrong + 1 >= MAX_CODE_ATTEMPTS then (Note(t.(offer := None), Spent(current.number, Burned)), Some(Invalid))
          else (t, Some(Invalid))
      else
        var t := s.(offer := None);
        if !c.gated then var r := Settle(t, current.number, now, true, token); (r.0, Some(r.1))
        else (t.(waiting := t.waiting[t.nextWait := Waiting(current.number, now)], nextWait := t.nextWait + 1), None)
  }

  function GateSettled(s: State, wait: nat, allowed: bool, token: string): (State, Answer)
    requires wait in s.waiting
  {
    Settle(s.(waiting := s.waiting - {wait}), s.waiting[wait].number, s.waiting[wait].now, allowed, token)
  }

  function HasLive(s: State, now: int): (State, bool) {
    var t := if s.offer.Some? && s.offer.value.expiresAt <= now then s.(offer := None) else s;
    (t, t.offer.Some?)
  }

  datatype Op =
    | ArmOp(code: string, nonce: string, ttl: int, now: int)
    | RedeemOp(cred: Credential, now: int, token: string)
    | GateOp(wait: nat, allowed: bool, token: string)
    | DisarmOp
    | HasLiveOp(now: int)

  predicate Enabled(s: State, op: Op) {
    op.GateOp? ==> op.wait in s.waiting
  }

  function Apply(c: Config, s: State, op: Op): State
    requires Enabled(s, op)
  {
    match op
    case ArmOp(code, nonce, ttl, now) => Arm(c, s, code, nonce, ttl, now).0
    case RedeemOp(cred, now, token) => Redeem(c, s, cred, now, token).0
    case GateOp(wait, allowed, token) => GateSettled(s, wait, allowed, token).0
    case DisarmOp => s.(offer := None)
    case HasLiveOp(now) => HasLive(s, now).0
  }

  // ---------------------------------------------------------------------------
  // What becomes of an offer
  // ---------------------------------------------------------------------------

  function SpentCount(log: seq<Entry>, n: nat): nat {
    if log == [] then 0 else SpentCount(log[..|log| - 1], n) + if log[|log| - 1].Spent? && log[|log| - 1].number == n then 1 else 0
  }

  function IssuedCount(log: seq<Entry>, n: nat): nat {
    if log == [] then 0 else IssuedCount(log[..|log| - 1], n) + if log[|log| - 1].Issued? && log[|log| - 1].number == n then 1 else 0
  }

  function GuessCount(log: seq<Entry>, n: nat): nat {
    if log == [] then 0 else GuessCount(log[..|log| - 1], n) + if log[|log| - 1] == Guessed(n) then 1 else 0
  }

  predicate Paid(log: seq<Entry>, n: nat) {
    Spent(n, Paired) in log
  }

  /** The offer is the one on show. */
  predicate Live(s: State, n: nat) {
    s.offer.Some? && s.offer.value.number == n
  }

  predicate AskedAbout(s: State, n: nat) {
    exists w | w in s.waiting :: s.waiting[w].number == n
  }

  /** One redeem at most is waiting on an offer, and then the offer is off show and unspent. */
  predicate OfferOk(s: State, n: nat) {
    && SpentCount(s.log, n) <= 1
    && (Live(s, n) ==> SpentCount(s.log, n) == 0 && !AskedAbout(s, n) && GuessCount(s.log, n) == s.offer.value.wrong < MAX_CODE_ATTEMPTS)
    && (AskedAbout(s, n) ==> SpentCount(s.log, n) == 0)
    && (forall v, w | v in s.waiting && w in s.waiting && s.waiting[v].number == n && s.waiting[w].number == n :: v == w)
    && IssuedCount(s.log, n) <= SpentCount(s.log, n)
    && (IssuedCount(s.log, n) == 1 <==> Paid(s.log, n))
    && GuessCount(s.log, n) <= MAX_CODE_ATTEMPTS
    && (n >= s.armed ==> SpentCount(s.log, n) == 0 && GuessCount(s.log, n) == 0 && !AskedAbout(s, n) && !Live(s, n))
  }

  ghost predicate Inv(s: State) {
    (forall n :: OfferOk(s, n)) && (forall w | w in s.waiting :: w < s.nextWait)
  }

  lemma NoteCounts(log: seq<Entry>, e: Entry, n: nat)
    ensures SpentCount(log + [e], n) == SpentCount(log, n) + if e.Spent? && e.number == n then 1 else 0
    ensures IssuedCount(log + [e], n) == IssuedCount(log, n) + if e.Issued? && e.number == n then 1 else 0
    ensures GuessCount(log + [e], n) == GuessCount(log, n) + if e == Guessed(n) then 1 else 0
    ensures Paid(log + [e], n) <==> Paid(log, n) || e == Spent(n, Paired)
  {
    assert (log + [e])[..|log + [e]| - 1] == log;
    if Paid(log + [e], n) && e != Spent(n, Paired) {
      var i :| 0 <= i < |log + [e]| && (log + [e])[i] == Spent(n, Paired);
      assert log[i] == Spent(n, Paired);
    }
    if Paid(log, n) {
      var i :| 0 <= i < |log| && log[i] == Spent(n, Paired);
      assert (log + [e])[i] == Spent(n, Paired);
    }
    assert (log + [e])[|log|] == e;
  }

  lemma ArmKeepsInv(c: Config, s: State, code: string, nonce: string, ttl: int, now: int)
    requires Inv(s)
    ensures Inv(Arm(c, s, code, nonce, ttl, now).0)
  {
    var t := Arm(c, s, code, nonce, ttl, now).0;
    forall n ensures OfferOk(t, n) {
      assert OfferOk(s, n);
      NoteCounts(s.log, Armed(s.armed), n);
      hide SpentCount, IssuedCount, GuessCount, Paid, NormalizeTyped;
      assert AskedAbout(t, n) <==> AskedAbout(s, n);
    }
  }

  /** Taking the offer off show and asking nothing. */
  lemma WithdrawKeepsInv(s: State)
    requires Inv(s)
    ensures Inv(s.(offer := None))
  {
    forall n ensures OfferOk(s.(offer := None), n) {
      assert OfferOk(s, n);
      hide SpentCount, IssuedCount, GuessCount, Paid;
      assert AskedAbout(s.(offer := None), n) <==> AskedAbout(s, n);
    }
  }

  lemma GuessKeepsInv(s: State)
    requires Inv(s) && s.offer.Some?
    ensures var current := s.offer.value;
            var t := Note(s.(offer := Some(current.(wrong := current.wrong + 1))), Guessed(current.number));
            if current.wrong + 1 >= MAX_CODE_ATTEMPTS then Inv(Note(t.(offer := None), Spent(current.number, Burned))) else Inv(t)
  {
    var current := s.offer.value;
    var t := Note(s.(offer := Some(current.(wrong := current.wrong + 1))), Guessed(current.number));
    var u := Note(t.(offer := None), Spent(current.number, Burned));
    forall n ensures if current.wrong + 1 >= MAX_CODE_ATTEMPTS then OfferOk(u, n) else OfferOk(t, n) {
      assert OfferOk(s, n);
      NoteCounts(s.log, Guessed(current.number), n);
      NoteCounts(t.log, Spent(current.number, Burned), n);
      hide SpentCount, IssuedCount, GuessCount, Paid;
      assert AskedAbout(t, n) <==> AskedAbout(s, n);
      assert AskedAbout(u, n) <==> AskedAbout(s, n);
    }
  }

  /** A credential that matched: the offer goes, and the redeem waits. */
  lemma AskKeepsInv(s: State, now: int)
    requires Inv(s) && s.offer.Some?
    ensures Inv(s.(offer := None, waiting := s.waiting[s.nextWait := Waiting(s.offer.value.number, now)], nextWait := s.nextWait + 1))
  {
    var number := s.offer.value.number;
    var t := s.(offer := None, waiting := s.waiting[s.nextWait := Waiting(number, now)], nextWait := s.nextWait + 1);
    assert s.nextWait !in s.waiting;
    forall n ensures OfferOk(t, n) {
      assert OfferOk(s, n);
      hide SpentCount, IssuedCount, GuessCount, Paid;
      assert n != number ==> (AskedAbout(t, n) <==> AskedAbout(s, n)) by {
        if AskedAbout(t, n) && n != number {
          var w :| w in t.waiting && t.waiting[w].number == n;
          assert w in s.waiting;
        }
        if AskedAbout(s, n) {
          var w :| w in s.waiting && s.waiting[w].number == n;
          assert w in t.waiting && t.waiting[w].number == n;
        }
      }
      if n == number {
        forall w | w in s.waiting ensures s.waiting[w].number != n { assert !AskedAbout(s, n); }
      }
    }
  }

  /** An offer that is off show, unspent, and asked about by nobody any more: it can still be settled. */
  predicate Settling(s: State, number: nat) {
    !Live(s, number) && !AskedAbout(s, number) && SpentCount(s.log, number) == 0 && number < s.armed
  }

  lemma RefuseKeepsInv(s: State, number: nat)
    requires Inv(s) && Settling(s, number)
    ensures Inv(Note(s, Spent(number, Refused)))
  {
    var t := Note(s, Spent(number, Refused));
    forall n ensures OfferOk(t, n) {
      assert OfferOk(s, n);
      NoteCounts(s.log, Spent(number, Refused), n);
      hide SpentCount, IssuedCount, GuessCount, Paid;
      assert AskedAbout(t, n) <==> AskedAbout(s, n);
    }
  }

  lemma PayKeepsInv(s: State, number: nat, token: string, expiresAt: int)
    requires Inv(s) && Settling(s, number)
    ensures Inv(Note(Note(s, Issued(number, token, expiresAt)), Spent(number, Paired)))
  {
    var t := Note(Note(s, Issued(number, token, expiresAt)), Spent(number, Paired));
    forall n ensures OfferOk(t, n) {
      assert OfferOk(s, n);
      assert AskedAbout(t, n) <==> AskedAbout(s, n);
      assert n == number ==> Settling(s, n);
      hide OfferOk, AskedAbout, Inv, Settling;
      PaidOfferOk(s, number, token, expiresAt, n);
    }
  }

  lemma PaidOfferOk(s: State, number: nat, token: string, expiresAt: int, n: nat)
    requires OfferOk(s, n) && (n == number ==> Settling(s, n))
    ensures OfferOk(Note(Note(s, Issued(number, token, expiresAt)), Spent(number, Paired)), n)
  {
    hide SpentCount, IssuedCount, GuessCount, Paid;
    var t := Note(Note(s, Issued(number, token, expiresAt)), Spent(number, Paired));
    NoteCounts(s.log, Issued(number, token, expiresAt), n);
    NoteCounts(s.log + [Issued(number, token, expiresAt)], Spent(number, Paired), n);
    assert AskedAbout(t, n) <==> AskedAbout(s, n);
  }

  lemma SettleKeepsInv(s: State, number: nat, now: int, allowed: bool, token: string)
    requires Inv(s) && Settling(s, number)
    ensures Inv(Settle(s, number, now, allowed, token).0)
  {
    hide Inv, Settling, Note;
    if allowed { PayKeepsInv(s, number, token, now + SESSION_TTL_MS); } else { RefuseKeepsInv(s, number); }
  }

  lemma LiveIsSettling(s: State)
    requires Inv(s) && s.offer.Some?
    ensures Settling(s.(offer := None), s.offer.value.number)
  {
    var n := s.offer.value.number;
    assert OfferOk(s, n);
    hide SpentCount, IssuedCount, GuessCount, Paid;
    assert AskedAbout(s.(offer := None), n) <==> AskedAbout(s, n);
  }

  /** The redeem whose answer came is the only one on its offer. */
  lemma AnsweredIsSettling(s: State, wait: nat)
    requires Inv(s) && wait in s.waiting
    ensures Inv(s.(waiting := s.waiting - {wait})) && Settling(s.(waiting := s.waiting - {wait}), s.waiting[wait].number)
  {
    var number := s.waiting[wait].number;
    var t := s.(waiting := s.waiting - {wait});
    assert AskedAbout(s, number);
    assert OfferOk(s, number);
    hide SpentCount, IssuedCount, GuessCount, Paid;
    forall n ensures OfferOk(t, n) {
      assert OfferOk(s, n);
      assert AskedAbout(t, n) ==> AskedAbout(s, n);
    }
    assert !AskedAbout(t, number);
  }

  lemma ApplyKeepsInv(c: Config, s: State, op: Op)
    requires Inv(s) && Enabled(s, op)
    ensures Inv(Apply(c, s, op))
  {
    hide Inv, Settle, Note, ResolveVia, NormalizeTyped, Settling;
    match op
    case ArmOp(code, nonce, ttl, now) => ArmKeepsInv(c, s, code, nonce, ttl, now); hide Arm;
    case RedeemOp(cred, now, token) =>
      WithdrawKeepsInv(s);
      if s.offer.Some? {
        GuessKeepsInv(s);
        AskKeepsInv(s, now);
        LiveIsSettling(s);
        SettleKeepsInv(s.(offer := None), s.offer.value.number, now, true, token);
      }
    case GateOp(wait, allowed, token) =>
      AnsweredIsSettling(s, wait);
      SettleKeepsInv(s.(waiting := s.waiting - {wait}), s.waiting[wait].number, s.waiting[wait].now, allowed, token);
    case DisarmOp => WithdrawKeepsInv(s);
    case HasLiveOp(now) => WithdrawKeepsInv(s);
  }

  predicate AllEnabled(c: Config, s: State, ops: seq<Op>)
    decreases |ops|
  {
    ops == [] || (Enabled(s, ops[0]) && AllEnabled(c, Apply(c, s, ops[0]), ops[1..]))
  }

  function Exec(c: Config, s: State, ops: seq<Op>): State
    requires AllEnabled(c, s, ops)
    decreases |ops|
  {
    if ops == [] then s else Exec(c, Apply(c, s, ops[0]), ops[1..])
  }

  lemma {:induction false} RunsKeepInv(c: Config, s: State, ops: seq<Op>)
    requires Inv(s) && AllEnabled(c, s, ops)
    ensures Inv(Exec(c, s, ops))
    decreases |ops|
  {
    hide Inv, Apply, Enabled;
    if ops != [] {
      ApplyKeepsInv(c, s, ops[0]);
      RunsKeepInv(c, Apply(c, s, ops[0]), ops[1..]);
    }
  }

  /** Main result: over every run, with redeems overlapping open questions and offers re-armed at any time, an
    * offer ends at most once, issues a session exactly when it ended paired and then one, and absorbs at most
    * five wrong codes. */
  lemma EveryOfferEndsOnce(c: Config, ops: seq<Op>, n: nat)
    requires AllEnabled(c, START, ops)
    ensures var s := Exec(c, START, ops);
            && SpentCount(s.log, n) <= 1 && IssuedCount(s.log, n) <= 1
            && (IssuedCount(s.log, n) == 1 <==> Spent(n, Paired) in s.log)
            && GuessCount(s.log, n) <= MAX_CODE_ATTEMPTS
  {
    assert Inv(START);
    RunsKeepInv(c, START, ops);
    hide Exec;
    assert OfferOk(Exec(c, START, ops), n);
  }

  /** Main result: a matching credential takes the offer off show before anyone is asked, so the same
    * credential finds nothing while the question is open, whatever the answer will be. */
  lemma MatchSpendsBeforeAsking(c: Config, s: State, cred: Credential, now: int, token: string, again: Credential, later: int)
    requires s.offer.Some? && s.offer.value.expiresAt > now && ResolveVia(c, s.offer.value, cred).Some?
    ensures var t := Redeem(c, s, cred, now, token).0;
            t.offer.None? && Redeem(c, t, again, later, token) == (t, Some(Invalid))
  {
    hide ResolveVia, NormalizeTyped;
  }

  /** A wrong nonce alone costs the offer nothing. */
  lemma WrongNonceIsFree(c: Config, s: State, cred: Credential, now: int, token: string)
    requires s.offer.Some? && s.offer.value.expiresAt > now && ResolveVia(c, s.offer.value, cred).None? && Typed(cred).None?
    ensures Redeem(c, s, cred, now, token) == (s, Some(Invalid))
  {
    hide ResolveVia, NormalizeTyped;
  }

  /** Main result: the fifth wrong code burns the offer, and no earlier one does. */
  lemma FifthGuessBurns(c: Config, s: State, cred: Credential, now: int, token: string)
    requires Inv(s) && s.offer.Some? && s.offer.value.expiresAt > now && ResolveVia(c, s.offer.value, cred).None? && Typed(cred).Some?
    ensures var t := Redeem(c, s, cred, now, token).0;
            var n := s.offer.value.number;
            && GuessCount(t.log, n) == GuessCount(s.log, n) + 1
            && (GuessCount(t.log, n) == MAX_CODE_ATTEMPTS <==> !Live(t, n))
            && (!Live(t, n) <==> Spent(n, Burned) in t.log)
  {
    var n := s.offer.value.number;
    var t := Redeem(c, s, cred, now, token).0;
    assert OfferOk(s, n);
    NoteCounts(s.log, Guessed(n), n);
    NoteCounts(s.log + [Guessed(n)], Spent(n, Burned), n);
    NotBurnedYet(s.log, n);
    InGrown(s.log, Guessed(n), Spent(n, Burned));
    InGrown(s.log + [Guessed(n)], Spent(n, Burned), Spent(n, Burned));
    hide SpentCount, GuessCount, IssuedCount, ResolveVia, NormalizeTyped;
  }

  lemma InGrown(log: seq<Entry>, e: Entry, x: Entry)
    ensures x in log + [e] <==> x in log || x == e
  {
  }

  lemma {:induction false} NotBurnedYet(log: seq<Entry>, n: nat)
    requires SpentCount(log, n) == 0
    ensures Spent(n, Burned) !in log
  {
    if log != [] {
      NotBurnedYet(log[..|log| - 1], n);
      assert log == log[..|log| - 1] + [log[|log| - 1]];
    }
  }

  /** The module's variables, changed in place. */
  class OfferObject {
    const config: Config
    var offer: Option<Offer>
    var armed: nat
    var waiting: map<nat, Waiting>
    var nextWait: nat
    var log: seq<Entry>

    ghost function View(): State
      reads this
    {
      State(offer, armed, waiting, nextWait, log)
    }

    constructor (config: Config)
      ensures this.config == config && View() == START
    {
      this.config := config;
      offer, armed, waiting, nextWait, log := None, 0, map[], 0, [];
    }

    method ArmPairing(code: string, nonce: string, ttl: int, now: int) returns (ok: bool)
      modifies this
      ensures (View(), ok) == Arm(config, old(View()), code, nonce, ttl, now)
    {
      hide NormalizeTyped;
      var digits := NormalizeTyped(code);
      if digits.None? { return false; }
      offer := Some(Offer(armed, config.digest(nonce), config.digest(digits.value), now + ttl, 0));
      log := log + [Armed(armed)];
      armed := armed + 1;
      ok := true;
    }

    /** Runs up to the question; no answer yet means the redeem is waiting for one. */
    method RedeemPairing(cred: Credential, now: int, token: string) returns (answer: Option<Answer>)
      modifies this
      ensures (View(), answer) == Redeem(config, old(View()), cred, now, token)
    {
      hide NormalizeTyped, ResolveVia, Settle;
      if offer.None? || offer.value.expiresAt <= now {
        offer := None;
        return Some(Invalid);
      }
      var current := offer.value;
      var via := ResolveVia(config, current, cred);
      if via.None? {
        if Typed(cred).Some? {
          offer := Some(current.(wrong := current.wrong + 1));
          log := log + [Guessed(current.number)];
          if current.wrong + 1 >= MAX_CODE_ATTEMPTS {
            offer := None;
            log := log + [Spent(current.number, Burned)];
          }
        }
        return Some(Invalid);
      }
      offer := None;
      if !config.gated {
        var settled := Answered(current.number, now, true, token);
        return Some(settled);
      }
      waiting, nextWait := waiting[nextWait := Waiting(current.number, now)], nextWait + 1;
      answer := None;
    }

    method Answered(number: nat, now: int, allowed: bool, token: string) returns (answer: Answer)
      modifies this
      ensures (View(), answer) == Settle(old(View()), number, now, allowed, token)
    {
      if !allowed {
        log := log + [Spent(number, Refused)];
        return RefusedAnswer;
      }
      log := log + [Issued(number, token, now + SESSION_TTL_MS)];
      log := log + [Spent(number, Paired)];
      answer := Session(token, now + SESSION_TTL_MS);
    }

    method GateAnswered(wait: nat, allowed: bool, token: string) returns (answer: Answer)
      requires wait in waiting
      modifies this
      ensures (View(), answer) == GateSettled(old(View()), wait, allowed, token)
    {
      hide Settle;
      var asked := waiting[wait];
      waiting := waiting - {wait};
      answer := Answered(asked.number, asked.now, allowed, token);
    }

    method Disarm()
      modifies this
      ensures View() == old(View()).(offer := None)
    {
      offer := None;
    }

    method HasLiveOffer(now: int) returns (live: bool)
      modifies this
      ensures (View(), live) == HasLive(old(View()), now)
    {
      if offer.Some? && offer.value.expiresAt <= now { offer := None; }
      live := offer.Some?;
    }
  }
}
