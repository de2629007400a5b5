/** Who may redeem a local pairing offer, told from the operations' own arguments (apps/relay/src/pairing-local.ts). */
module OfferRedemption {
  import opened Options
  import opened LocalOffer

  // ---------------------------------------------------------------------------
  // Typed codes
  // ---------------------------------------------------------------------------

  predicate IsSeparator(ch: char) {
    IsSpace(ch) || ch == '-'
  }

  lemma {:induction false} StrippedHas(s: string)
    ensures forall ch :: ch in Stripped(s) <==> ch in s && !IsSeparator(ch)
    ensures (forall i | 0 <= i < |s| :: !IsSeparator(s[i])) ==> Stripped(s) == s
  {
    if s != "" {
      StrippedHas(s[1..]);
      assert s == [s[0]] + s[1..];
      assert forall i | 0 <= i < |s[1..]| :: s[1..][i] == s[i + 1];
    }
  }

  lemma {:induction false} StrippedJoins(a: string, b: string)
    ensures Stripped(a + b) == Stripped(a) + Stripped(b)
  {
    if a == "" {
      assert a + b == b;
    } else {
      assert (a + b)[1..] == a[1..] + b;
      StrippedJoins(a[1..], b);
    }
  }

  lemma SeparatorsDoNotCount(a: string, b: string, separator: char)
    requires IsSeparator(separator)
    ensures Stripped(a + [separator] + b) == Stripped(a + b)
  {
    StrippedJoins(a + [separator], b);
    StrippedJoins(a, [separator]);
    StrippedJoins(a, b);
    assert [separator][1..] == "" && Stripped([separator]) == "";
  }

  lemma DigitsAndSeparatorsOnly(a: string)
    ensures Stripped(a) != "" && (forall i | 0 <= i < |Stripped(a)| :: IsDigit(Stripped(a)[i])) <==>
              (exists ch | ch in a :: IsDigit(ch)) && forall ch | ch in a :: IsDigit(ch) || IsSeparator(ch)
  {
    StrippedHas(a);
    hide Stripped, IsSeparator;
    var d := Stripped(a);
    if d != "" && forall i | 0 <= i < |d| :: IsDigit(d[i]) {
      assert d[0] in d && IsDigit(d[0]);
      forall ch | ch in a ensures IsDigit(ch) || IsSeparator(ch) {
        if !IsSeparator(ch) { var i :| 0 <= i < |d| && d[i] == ch; }
      }
    }
    if (exists ch | ch in a :: IsDigit(ch)) && forall ch | ch in a :: IsDigit(ch) || IsSeparator(ch) {
      var ch :| ch in a && IsDigit(ch);
      DigitsSeparateNothing(ch);
      assert ch in d;
      forall i | 0 <= i < |d| ensures IsDigit(d[i]) { assert d[i] in d; }
    }
  }

  /** Main result: a typed code is its digits: separators anywhere make no difference, plain digits stand for themselves,
    * and anything else in it, or nothing in it, makes it no code. */
  lemma TypedCodeIsItsDigits(a: string, b: string, separator: char)
    requires IsSeparator(separator)
    ensures NormalizeTyped(a + [separator] + b) == NormalizeTyped(a + b)
    ensures a != "" && (forall i | 0 <= i < |a| :: IsDigit(a[i])) ==> NormalizeTyped(a) == Some(a)
    ensures NormalizeTyped(a).Some? <==> (exists ch | ch in a :: IsDigit(ch)) && forall ch | ch in a :: IsDigit(ch) || IsSeparator(ch)
  {
    SeparatorsDoNotCount(a, b, separator);
    DigitsAndSeparatorsOnly(a);
    StrippedHas(a);
    forall i | 0 <= i < |a| && IsDigit(a[i]) ensures !IsSeparator(a[i]) { DigitsSeparateNothing(a[i]); }
    hide Stripped, IsSeparator, IsDigit;
  }

  lemma DigitsSeparateNothing(ch: char)
    requires IsDigit(ch)
    ensures !IsSeparator(ch)
  {
  }

  // ---------------------------------------------------------------------------
  // Which redeem an arming allows
  // ---------------------------------------------------------------------------

  /** The credential holds the secret this arming made: its nonce, or its digits as typed. */
  predicate Opens(c: Config, arm: Op, cred: Credential)
    requires arm.ArmOp?
  {
    || (cred.nonce.Some? && cred.nonce.value != "" && c.digest(cred.nonce.value) == c.digest(arm.nonce))
    || (cred.code.Some? && NormalizeTyped(cred.code.value).Some? && NormalizeTyped(arm.code).Some?
        && c.digest(NormalizeTyped(cred.code.value).value) == c.digest(NormalizeTyped(arm.code).value))
  }

  lemma {:induction false} PrefixEnabled(c: Config, s: State, ops: seq<Op>, k: nat)
    requires k <= |ops| && AllEnabled(c, s, ops)
    ensures AllEnabled(c, s, ops[..k])
    decreases k
  {
    hide Apply, Enabled;
    if k > 0 {
      PrefixEnabled(c, Apply(c, s, ops[0]), ops[1..], k - 1);
      assert ops[..k][1..] == ops[1..][..k - 1];
    }
  }

  lemma {:induction false} LastEnabled(c: Config, s: State, ops: seq<Op>)
    requires AllEnabled(c, s, ops) && ops != []
    ensures AllEnabled(c, s, ops[..|ops| - 1]) && Enabled(Exec(c, s, ops[..|ops| - 1]), ops[|ops| - 1])
    ensures Exec(c, s, ops) == Apply(c, Exec(c, s, ops[..|ops| - 1]), ops[|ops| - 1])
    decreases |ops|
  {
    hide Apply, Enabled;
    if |ops| > 1 {
      assert ops[..|ops| - 1][1..] == ops[1..][..|ops| - 2];
      LastEnabled(c, Apply(c, s, ops[0]), ops[1..]);
    }
  }

  function Before(c: Config, ops: seq<Op>, i: nat): State
    requires AllEnabled(c, START, ops) && i <= |ops|
  {
    PrefixEnabled(c, START, ops, i);
    Exec(c, START, ops[..i])
  }

  /** Operation `i` arms offer `n`. */
  predicate Arms(c: Config, ops: seq<Op>, i: nat, n: nat)
    requires AllEnabled(c, START, ops)
  {
    i < |ops| && ops[i].ArmOp? && NormalizeTyped(ops[i].code).Some? && Before(c, ops, i).armed == n
  }

  /** Operation `j` redeems offer `n` while it is on show and has time left, with a secret of the arming `i`. */
  predicate Redeems(c: Config, ops: seq<Op>, i: nat, j: nat, n: nat)
    requires AllEnabled(c, START, ops)
  {
    && i < j < |ops| && ops[i].ArmOp? && ops[j].RedeemOp? && Live(Before(c, ops, j), n)
    && ops[j].now < Before(c, ops, j).offer.value.expiresAt && Opens(c, ops[i], ops[j].cred)
  }

  ghost predicate WasRedeemed(c: Config, ops: seq<Op>, n: nat)
    requires AllEnabled(c, START, ops)
  {
    exists i: nat, j: nat :: Arms(c, ops, i, n) && Redeems(c, ops, i, j, n)
  }

  /** The offer on show is the one this arming made, and holds its secrets' digests and its time. */
  predicate ShownBy(c: Config, ops: seq<Op>, i: nat)
    requires AllEnabled(c, START, ops)
  {
    var s := Exec(c, START, ops);
    && s.offer.Some? && Arms(c, ops, i, s.offer.value.number)
    && s.offer.value.nonceKey == c.digest(ops[i].nonce) && s.offer.value.codeKey == c.digest(NormalizeTyped(ops[i].code).value)
    && s.offer.value.expiresAt == ops[i].now + ops[i].ttl
  }

  predicate AboutRedeemed(e: Entry, n: nat) {
    (e.Issued? && e.number == n) || e == Spent(n, Paired) || e == Spent(n, Refused)
  }

  ghost predicate Told(c: Config, ops: seq<Op>)
    requires AllEnabled(c, START, ops)
  {
    var s := Exec(c, START, ops);
    && (s.offer.Some? ==> exists i: nat :: ShownBy(c, ops, i))
    && (forall w | w in s.waiting :: WasRedeemed(c, ops, s.waiting[w].number))
    && (forall k | 0 <= k < |s.log| :: EntryRedeemed(c, ops, s.log[k]))
  }

  ghost predicate EntryRedeemed(c: Config, ops: seq<Op>, e: Entry)
    requires AllEnabled(c, START, ops)
  {
    e.Issued? || (e.Spent? && (e.outcome.Paired? || e.outcome.Refused?)) ==> WasRedeemed(c, ops, e.number)
  }

  lemma ArmsStays(c: Config, ops: seq<Op>, op: Op, i: nat, n: nat)
    requires AllEnabled(c, START, ops) && AllEnabled(c, START, ops + [op])
    ensures Arms(c, ops, i, n) ==> Arms(c, ops + [op], i, n)
  {
    hide Exec, AllEnabled, NormalizeTyped;
    if i < |ops| { assert (ops + [op])[..i] == ops[..i] && (ops + [op])[i] == ops[i]; }
  }

  lemma RedeemsStays(c: Config, ops: seq<Op>, op: Op, i: nat, j: nat, n: nat)
    requires AllEnabled(c, START, ops) && AllEnabled(c, START, ops + [op])
    ensures Redeems(c, ops, i, j, n) ==> Redeems(c, ops + [op], i, j, n)
  {
    hide Exec, AllEnabled, Opens;
    if i < j < |ops| { assert (ops + [op])[..j] == ops[..j] && (ops + [op])[j] == ops[j] && (ops + [op])[i] == ops[i]; }
  }

  lemma WasRedeemedStays(c: Config, ops: seq<Op>, op: Op, n: nat)
    requires AllEnabled(c, START, ops) && AllEnabled(c, START, ops + [op]) && WasRedeemed(c, ops, n)
    ensures WasRedeemed(c, ops + [op], n)
  {
    hide Arms, Redeems, AllEnabled;
    var i: nat, j: nat :| Arms(c, ops, i, n) && Redeems(c, ops, i, j, n);
    ArmsStays(c, ops, op, i, n);
    RedeemsStays(c, ops, op, i, j, n);
  }

  /** What one operation may do to the offer on show, to what waits and to the log. */
  ghost predicate OneStep(c: Config, s: State, op: Op, t: State)
    requires Enabled(s, op)
  {
    && (t.offer.Some? ==>
          || (op.ArmOp? && NormalizeTyped(op.code).Some?
              && t.offer.value == Offer(s.armed, c.digest(op.nonce), c.digest(NormalizeTyped(op.code).value), op.now + op.ttl, 0))
          || (s.offer.Some? && t.offer.value == s.offer.value.(wrong := t.offer.value.wrong)))
    && (forall w | w in t.waiting :: (w in s.waiting && t.waiting[w].number == s.waiting[w].number) || (Opening(c, s, op) && t.waiting[w].number == s.offer.value.number))
    && s.log <= t.log
    && (forall k, n | |s.log| <= k < |t.log| && AboutRedeemed(t.log[k], n) ::
          (Opening(c, s, op) && n == s.offer.value.number) || (op.GateOp? && n == s.waiting[op.wait].number))
  }

  /** The operation redeems the offer on show, in time, with a secret it was armed with. */
  predicate Opening(c: Config, s: State, op: Op) {
    && op.RedeemOp? && s.offer.Some? && op.now < s.offer.value.expiresAt
    && (|| (op.cred.nonce.Some? && op.cred.nonce.value != "" && c.digest(op.cred.nonce.value) == s.offer.value.nonceKey)
        || (op.cred.code.Some? && NormalizeTyped(op.cred.code.value).Some? && c.digest(NormalizeTyped(op.cred.code.value).value) == s.offer.value.codeKey))
  }

  lemma NothingTyped()
    ensures NormalizeTyped("").None?
  {
  }

  lemma ResolvesIffOpening(c: Config, s: State, op: Op)
    requires op.RedeemOp? && s.offer.Some? && op.now < s.offer.value.expiresAt
    ensures ResolveVia(c, s.offer.value, op.cred).Some? <==> Opening(c, s, op)
  {
    NothingTyped();
    hide NormalizeTyped;
  }

  lemma ApplyIsOneStep(c: Config, s: State, op: Op)
    requires Enabled(s, op)
    ensures OneStep(c, s, op, Apply(c, s, op))
  {
    if op.RedeemOp? && s.offer.Some? && op.now < s.offer.value.expiresAt { ResolvesIffOpening(c, s, op); }
    hide NormalizeTyped, ResolveVia, Opening;
  }

  /** Main result: a redeem of the offer on show with a secret of its arming always takes it off show, and with nobody to
    * ask pays it at once; any other redeem leaves it there or costs it a guess. */
  lemma OpeningSpends(c: Config, s: State, op: Op)
    requires op.RedeemOp? && s.offer.Some? && op.now < s.offer.value.expiresAt
    ensures var t := Apply(c, s, op);
            var n := s.offer.value.number;
            && (Opening(c, s, op) ==>
                  && t.offer.None?
                  && (c.gated ==> t.waiting == s.waiting[s.nextWait := Waiting(n, op.now)] && t.log == s.log)
                  && (!c.gated ==> t.waiting == s.waiting && t.log == s.log + [Issued(n, op.token, op.now + SESSION_TTL_MS), Spent(n, Paired)]))
            && (!Opening(c, s, op) ==>
                  && t.waiting == s.waiting
                  && (Typed(op.cred).None? ==> t == s)
                  && (Typed(op.cred).Some? && s.offer.value.wrong + 1 < MAX_CODE_ATTEMPTS ==>
                        t == s.(offer := Some(s.offer.value.(wrong := s.offer.value.wrong + 1)), log := s.log + [Guessed(n)]))
                  && (Typed(op.cred).Some? && s.offer.value.wrong + 1 >= MAX_CODE_ATTEMPTS ==>
                        t == s.(offer := None, log := s.log + [Guessed(n), Spent(n, Burned)])))
  {
    ResolvesIffOpening(c, s, op);
    hide NormalizeTyped, ResolveVia, Opening;
  }

  /** The machine's answer: yes pays the offer it was asked about, no refuses it. */
  lemma AnswerDecides(c: Config, s: State, op: Op)
    requires op.GateOp? && Enabled(s, op)
    ensures var t := Apply(c, s, op);
            var w := s.waiting[op.wait];
            && t.offer == s.offer && t.waiting == s.waiting - {op.wait}
            && t.log == s.log + if op.allowed then [Issued(w.number, op.token, w.now + SESSION_TTL_MS), Spent(w.number, Paired)] else [Spent(w.number, Refused)]
  {
  }

  /** A code that is digits goes on show, in place of whatever was there; anything else changes nothing. */
  lemma ArmingShows(c: Config, s: State, op: Op)
    requires op.ArmOp?
    ensures NormalizeTyped(op.code).None? ==> Apply(c, s, op) == s
    ensures NormalizeTyped(op.code).Some? ==>
              && Apply(c, s, op).offer == Some(Offer(s.armed, c.digest(op.nonce), c.digest(NormalizeTyped(op.code).value), op.now + op.ttl, 0))
              && Apply(c, s, op).waiting == s.waiting
  {
    hide NormalizeTyped;
  }

  /** What the redeemer hears: a session for a day when nobody has to be asked, nothing yet when somebody does, and
    * otherwise the same "invalid" whether the secret was wrong, late or spent. */
  lemma RedeemerHears(c: Config, s: State, cred: Credential, now: int, token: string)
    ensures var (t, answer) := Redeem(c, s, cred, now, token);
            && t == Apply(c, s, RedeemOp(cred, now, token))
            && (Opening(c, s, RedeemOp(cred, now, token)) ==> answer == if c.gated then None else Some(Session(token, now + 24 * 60 * 60 * 1000)))
            && (!Opening(c, s, RedeemOp(cred, now, token)) ==> answer == Some(Invalid))
  {
    if s.offer.Some? && now < s.offer.value.expiresAt { ResolvesIffOpening(c, s, RedeemOp(cred, now, token)); }
    hide NormalizeTyped, ResolveVia, Opening;
  }

  /** And once the machine has answered: a session from the time of the redeem on a yes, a refusal on a no. */
  lemma WaiterHears(c: Config, s: State, wait: nat, allowed: bool, token: string)
    requires wait in s.waiting
    ensures var (t, answer) := GateSettled(s, wait, allowed, token);
            && t == Apply(c, s, GateOp(wait, allowed, token))
            && answer == if allowed then Session(token, s.waiting[wait].now + 24 * 60 * 60 * 1000) else RefusedAnswer
  {
  }

  /** Nothing but time, a redeem or the machine itself ends an offer: disarming takes it off show, and asking whether one is
    * live answers yes exactly while it has time left, dropping it once it has none. */
  lemma OnlyTimeEndsIt(c: Config, s: State, now: int)
    ensures Apply(c, s, DisarmOp).offer.None? && Apply(c, s, DisarmOp) == s.(offer := Apply(c, s, DisarmOp).offer)
    ensures HasLive(s, now).0 == Apply(c, s, HasLiveOp(now))
    ensures HasLive(s, now).1 <==> s.offer.Some? && now < s.offer.value.expiresAt
    ensures HasLive(s, now).1 ==> HasLive(s, now).0 == s
    ensures !HasLive(s, now).1 ==> HasLive(s, now).0.offer.None? && HasLive(s, now).0 == s.(offer := HasLive(s, now).0.offer)
  {
  }

  lemma ShownStays(c: Config, ops: seq<Op>, op: Op)
    requires AllEnabled(c, START, ops) && Told(c, ops) && Enabled(Exec(c, START, ops), op) && AllEnabled(c, START, ops + [op])
    requires OneStep(c, Exec(c, START, ops), op, Exec(c, START, ops + [op])) && Exec(c, START, ops + [op]).offer.Some?
    ensures exists i: nat :: ShownBy(c, ops + [op], i)
  {
    var s, t := Exec(c, START, ops), Exec(c, START, ops + [op]);
    hide Exec, AllEnabled, NormalizeTyped, Apply, Enabled;
    if op.ArmOp? && NormalizeTyped(op.code).Some? && t.offer.value.number == s.armed {
      assert (ops + [op])[..|ops|] == ops && (ops + [op])[|ops|] == op;
      if t.offer.value == Offer(s.armed, c.digest(op.nonce), c.digest(NormalizeTyped(op.code).value), op.now + op.ttl, 0) {
        assert ShownBy(c, ops + [op], |ops|);
        return;
      }
    }
    var i: nat :| ShownBy(c, ops, i);
    ArmsStays(c, ops, op, i, s.offer.value.number);
    assert (ops + [op])[i] == ops[i];
    assert ShownBy(c, ops + [op], i);
  }

  lemma OpeningRedeems(c: Config, ops: seq<Op>, op: Op)
    requires AllEnabled(c, START, ops) && Told(c, ops) && AllEnabled(c, START, ops + [op]) && Opening(c, Exec(c, START, ops), op)
    ensures WasRedeemed(c, ops + [op], Exec(c, START, ops).offer.value.number)
  {
    var s := Exec(c, START, ops);
    var n := s.offer.value.number;
    hide Exec, AllEnabled, NormalizeTyped;
    var i: nat :| ShownBy(c, ops, i);
    ArmsStays(c, ops, op, i, n);
    assert (ops + [op])[..|ops|] == ops && (ops + [op])[|ops|] == op && (ops + [op])[i] == ops[i];
    assert Redeems(c, ops + [op], i, |ops|, n);
  }

  lemma {:induction false} RunsAreTold(c: Config, ops: seq<Op>)
    requires AllEnabled(c, START, ops)
    ensures Told(c, ops)
    decreases |ops|
  {
    if ops != [] {
      var before, op := ops[..|ops| - 1], ops[|ops| - 1];
      LastEnabled(c, START, ops);
      assert before + [op] == ops;
      RunsAreTold(c, before);
      ApplyIsOneStep(c, Exec(c, START, before), op);
      TellOneMore(c, before, op);
    }
  }

  lemma TellOneMore(c: Config, ops: seq<Op>, op: Op)
    requires AllEnabled(c, START, ops) && Told(c, ops) && AllEnabled(c, START, ops + [op]) && Enabled(Exec(c, START, ops), op)
    requires OneStep(c, Exec(c, START, ops), op, Exec(c, START, ops + [op]))
    ensures Told(c, ops + [op])
  {
    var s, t := Exec(c, START, ops), Exec(c, START, ops + [op]);
    hide Exec, AllEnabled, WasRedeemed, ShownBy, Opening, NormalizeTyped;
    if t.offer.Some? { ShownStays(c, ops, op); }
    if Opening(c, s, op) { OpeningRedeems(c, ops, op); }
    forall w | w in t.waiting ensures WasRedeemed(c, ops + [op], t.waiting[w].number) {
      if w in s.waiting && t.waiting[w].number == s.waiting[w].number { WasRedeemedStays(c, ops, op, s.waiting[w].number); }
    }
    forall k | 0 <= k < |t.log| ensures EntryRedeemed(c, ops + [op], t.log[k]) {
      var e := t.log[k];
      if k < |s.log| {
        assert e == s.log[k] && EntryRedeemed(c, ops, e);
        if !e.Armed? && !e.Guessed? && WasRedeemed(c, ops, e.number) { WasRedeemedStays(c, ops, op, e.number); }
      } else if e.Issued? || (e.Spent? && (e.outcome.Paired? || e.outcome.Refused?)) {
        assert AboutRedeemed(e, e.number);
        if op.GateOp? && e.number == s.waiting[op.wait].number { WasRedeemedStays(c, ops, op, e.number); }
      }
    }
  }

  /** Main result: over every run, an offer is asked about, refused or paid for only if a redeem of it, while it was on show
    * and had time left, carried the nonce its own arming made or the digits its own arming was given. */
  lemma OnlyItsSecretsRedeem(c: Config, ops: seq<Op>, n: nat)
    requires AllEnabled(c, START, ops)
    ensures var s := Exec(c, START, ops);
            (exists w | w in s.waiting :: s.waiting[w].number == n) || (exists k | 0 <= k < |s.log| :: AboutRedeemed(s.log[k], n)) ==> WasRedeemed(c, ops, n)
  {
    RunsAreTold(c, ops);
    var s := Exec(c, START, ops);
    hide Exec, AllEnabled, WasRedeemed, ShownBy;
    if k :| 0 <= k < |s.log| && AboutRedeemed(s.log[k], n) { assert EntryRedeemed(c, ops, s.log[k]); }
  }
}
