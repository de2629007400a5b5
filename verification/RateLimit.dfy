/** Per-key sliding-window rate limiting (apps/api/src/rate-limit.ts).

  `Limiter` is the limiter's state, `Take`/`RetryAfter` its two operations and
  `RateLimiter` the object that updates that state in place. The reference it is
  proved against is a plain log of every accepted take: pruning and idle eviction
  must be invisible next to it.
 */
module RateLimit {

  type Key = string

  const IDLE_EVICT_MS := 600_000
  const MAX_KEYS := 50_000

  datatype Limiter = Limiter(limit: nat, windowMs: int, hits: map<Key, seq<int>>, lastSweep: int)

  function NewLimiter(limit: nat, windowMs: int): Limiter {
    Limiter(limit, windowMs, map[], 0)
  }

  /** The times later than a cutoff, in order. */
  function After(times: seq<int>, cutoff: int): (r: seq<int>)
    ensures |r| <= |times|
  {
    if times == [] then []
    else if times[0] > cutoff then [times[0]] + After(times[1..], cutoff)
    else After(times[1..], cutoff)
  }

  function Hits(l: Limiter, key: Key): seq<int> {
    if key in l.hits then l.hits[key] else []
  }

  /** Drop a key's hits that have left the window, and the key with its last one. */
  function Prune(l: Limiter, key: Key, now: int): Limiter {
    var times := After(Hits(l, key), now - l.windowMs);
    l.(hits := if times == [] then l.hits - {key} else l.hits[key := times])
  }

  predicate SweepDue(l: Limiter, now: int) {
    !(now - l.lastSweep < IDLE_EVICT_MS && |l.hits| < MAX_KEYS)
  }

  predicate AtMost(times: seq<int>, top: int) {
    forall i | 0 <= i < |times| :: times[i] <= top
  }

  predicate Above(times: seq<int>, cutoff: int) {
    forall i | 0 <= i < |times| :: times[i] > cutoff
  }

  function Sweep(l: Limiter, now: int): Limiter {
    if SweepDue(l, now) then
      l.(lastSweep := now, hits := map k | k in l.hits && !AtMost(l.hits[k], now - l.windowMs) :: l.hits[k])
    else l
  }

  function Take(l: Limiter, key: Key, now: int): (Limiter, bool) {
    var p := Prune(Sweep(l, now), key, now);
    if |Hits(p, key)| >= l.limit then (p, false)
    else (p.(hits := p.hits[key := Hits(p, key) + [now]]), true)
  }

  function RetryAfter(l: Limiter, key: Key, now: int): (Limiter, int) {
    var p := Prune(l, key, now);
    var times := Hits(p, key);
    if times == [] || |times| < l.limit then (p, 0)
    else (p, if times[0] + l.windowMs - now < 0 then 0 else times[0] + l.windowMs - now)
  }

  // ---------------------------------------------------------------------------
  // The reference: a log of every accepted take, never pruned
  // ---------------------------------------------------------------------------

  datatype Hit = Hit(key: Key, at: int)

  function TimesOf(log: seq<Hit>, key: Key): seq<int> {
    if log == [] then []
    else if log[0].key == key then [log[0].at] + TimesOf(log[1..], key)
    else TimesOf(log[1..], key)
  }

  /** How many of `times` lie in the half-open window `(lo, hi]`. */
  function Count(times: seq<int>, lo: int, hi: int): nat {
    if times == [] then 0
    else (if lo < times[0] <= hi then 1 else 0) + Count(times[1..], lo, hi)
  }

  datatype Op = TakeOp(key: Key, now: int) | RetryOp(key: Key, now: int)

  /** A limiter together with the log of what it has accepted and the last clock reading. */
  datatype Run = Run(l: Limiter, log: seq<Hit>, clock: int)

  function RunTake(r: Run, key: Key, now: int): Run {
    var (l, ok) := Take(r.l, key, now);
    Run(l, if ok then r.log + [Hit(key, now)] else r.log, now)
  }

  function StepRun(r: Run, op: Op): Run {
    match op
    case TakeOp(key, now) => RunTake(r, key, now)
    case RetryOp(key, now) => Run(RetryAfter(r.l, key, now).0, r.log, now)
  }

  function RunOps(r: Run, ops: seq<Op>): Run
    decreases |ops|
  {
    if ops == [] then r else RunOps(StepRun(r, ops[0]), ops[1..])
  }

  /** The clock never goes backwards along the run. */
  predicate Monotone(clock: int, ops: seq<Op>)
    decreases |ops|
  {
    ops == [] || (clock <= ops[0].now && Monotone(ops[0].now, ops[1..]))
  }

  predicate Sorted(times: seq<int>) {
    forall i, j | 0 <= i < j < |times| :: times[i] <= times[j]
  }

  /** What the limiter remembers of a key and what the log says agree inside the window. */
  ghost predicate KeyAgrees(r: Run, key: Key) {
    && After(Hits(r.l, key), r.clock - r.l.windowMs) == After(TimesOf(r.log, key), r.clock - r.l.windowMs)
    && Sorted(Hits(r.l, key))
    && AtMost(Hits(r.l, key), r.clock)
    && AtMost(TimesOf(r.log, key), r.clock)
  }

  ghost predicate WindowOk(r: Run, key: Key, hi: int) {
    Count(TimesOf(r.log, key), hi - r.l.windowMs, hi) <= r.l.limit
  }

  ghost predicate Refines(r: Run) {
    forall key: Key :: KeyAgrees(r, key)
  }

  ghost predicate RunInv(r: Run) {
    Refines(r) && forall key: Key, hi: int :: WindowOk(r, key, hi)
  }

  // ---------------------------------------------------------------------------
  // Lemmas about filtering and counting
  // ---------------------------------------------------------------------------

  lemma {:induction false} AfterAfter(times: seq<int>, low: int, high: int)
    requires low <= high
    ensures After(After(times, low), high) == After(times, high)
  {
    if times != [] {
      AfterAfter(times[1..], low, high);
      if times[0] > low {
        assert After(times, low)[1..] == After(times[1..], low);
      }
    }
  }

  lemma {:induction false} AfterFacts(times: seq<int>, cutoff: int, top: int)
    requires Sorted(times) && AtMost(times, top)
    ensures Sorted(After(times, cutoff)) && AtMost(After(times, cutoff), top) && Above(After(times, cutoff), cutoff)
    ensures times != [] && After(times, cutoff) != [] ==> times[0] <= After(times, cutoff)[0]
  {
    if times != [] {
      AfterFacts(times[1..], cutoff, top);
    }
  }

  lemma {:induction false} AfterAppend(a: seq<int>, b: seq<int>, cutoff: int)
    ensures After(a + b, cutoff) == After(a, cutoff) + After(b, cutoff)
  {
    if a == [] {
      assert a + b == b;
    } else {
      var tail := After(a[1..], cutoff);
      assert (a + b)[1..] == a[1..] + b && (a + b)[0] == a[0];
      AfterAppend(a[1..], b, cutoff);
      if a[0] > cutoff {
        assert [a[0]] + (tail + After(b, cutoff)) == [a[0]] + tail + After(b, cutoff);
      }
    }
  }

  lemma {:induction false} AfterNone(times: seq<int>, cutoff: int)
    ensures AtMost(times, cutoff) <==> After(times, cutoff) == []
  {
    if times != [] {
      AfterNone(times[1..], cutoff);
      assert AtMost(times, cutoff) ==> AtMost(times[1..], cutoff);
      assert times[0] <= cutoff && AtMost(times[1..], cutoff) ==> AtMost(times, cutoff) by {
        assert forall i | 1 <= i < |times| :: times[i] == times[1..][i - 1];
      }
    }
  }

  lemma {:induction false} AfterAll(times: seq<int>, cutoff: int)
    requires Above(times, cutoff)
    ensures After(times, cutoff) == times
  {
    if times != [] {
      AfterAll(times[1..], cutoff);
    }
  }

  lemma {:induction false} TimesOfAppend(log: seq<Hit>, hit: Hit, key: Key)
    ensures TimesOf(log + [hit], key) == TimesOf(log, key) + if hit.key == key then [hit.at] else []
  {
    if log != [] {
      assert (log + [hit])[1..] == log[1..] + [hit];
      TimesOfAppend(log[1..], hit, key);
    }
  }

  lemma {:induction false} CountAppend(times: seq<int>, t: int, lo: int, hi: int)
    ensures Count(times + [t], lo, hi) == Count(times, lo, hi) + if lo < t <= hi then 1 else 0
  {
    if times != [] {
      assert (times + [t])[1..] == times[1..] + [t];
      CountAppend(times[1..], t, lo, hi);
    }
  }

  lemma {:induction false} CountAtMostAfter(times: seq<int>, lo: int, hi: int, cutoff: int)
    requires cutoff <= lo
    ensures Count(times, lo, hi) <= |After(times, cutoff)|
    ensures cutoff == lo && AtMost(times, hi) ==> Count(times, lo, hi) == |After(times, cutoff)|
  {
    if times != [] {
      CountAtMostAfter(times[1..], lo, hi, cutoff);
    }
  }

  // ---------------------------------------------------------------------------
  // Each operation keeps the agreement
  // ---------------------------------------------------------------------------

  /** Pruning and idle eviction leave every key's in-window hits as they were. */
  lemma MaintenanceInvisible(l: Limiter, key: Key, other: Key, now: int)
    ensures After(Hits(Sweep(l, now), other), now - l.windowMs) == After(Hits(l, other), now - l.windowMs)
    ensures After(Hits(Prune(l, key, now), other), now - l.windowMs) == After(Hits(l, other), now - l.windowMs)
    ensures Hits(Prune(l, key, now), key) == After(Hits(l, key), now - l.windowMs)
    ensures Hits(Sweep(l, now), other) == Hits(l, other) || Hits(Sweep(l, now), other) == []
    ensures other != key ==> Hits(Prune(l, key, now), other) == Hits(l, other)
    ensures Sweep(l, now).windowMs == l.windowMs == Prune(l, key, now).windowMs
    ensures Sweep(l, now).limit == l.limit == Prune(l, key, now).limit
  {
    AfterNone(Hits(l, other), now - l.windowMs);
    AfterAfter(Hits(l, key), now - l.windowMs, now - l.windowMs);
  }

  /** A take sees exactly the key's in-window hits, and appends its own when granted. */
  lemma TakeSees(l: Limiter, key: Key, other: Key, now: int)
    ensures var seen := After(Hits(l, key), now - l.windowMs);
            var (l', ok) := Take(l, key, now);
            && ok == (|seen| < l.limit)
            && Hits(l', key) == seen + (if ok then [now] else [])
            && (other != key ==> Hits(l', other) == Hits(l, other) || Hits(l', other) == [])
            && (other != key ==> After(Hits(l', other), now - l.windowMs) == After(Hits(l, other), now - l.windowMs))
            && l'.limit == l.limit && l'.windowMs == l.windowMs
  {
    hide After, Sweep;
    MaintenanceInvisible(l, key, key, now);
    MaintenanceInvisible(l, key, other, now);
    var s := Sweep(l, now);
    MaintenanceInvisible(s, key, other, now);
  }

  /** A take is granted exactly when the unpruned log holds fewer than `limit` hits in the window. */
  lemma TakeDecision(r: Run, key: Key, now: int)
    requires KeyAgrees(r, key) && r.clock <= now
    ensures Take(r.l, key, now).1 <==> |After(TimesOf(r.log, key), now - r.l.windowMs)| < r.l.limit
  {
    TakeSees(r.l, key, key, now);
    LaterAgrees(r, key, now);
  }

  lemma LaterAgrees(r: Run, key: Key, now: int)
    requires KeyAgrees(r, key) && r.clock <= now
    ensures KeyAgrees(Run(r.l, r.log, now), key)
  {
    AfterAfter(Hits(r.l, key), r.clock - r.l.windowMs, now - r.l.windowMs);
    AfterAfter(TimesOf(r.log, key), r.clock - r.l.windowMs, now - r.l.windowMs);
  }

  lemma PruneKeepsAgreement(r: Run, key: Key, other: Key, now: int)
    requires KeyAgrees(r, other) && r.clock <= now
    ensures KeyAgrees(Run(Prune(r.l, key, now), r.log, now), other)
    ensures KeyAgrees(Run(Sweep(r.l, now), r.log, now), other)
  {
    LaterAgrees(r, other, now);
    MaintenanceInvisible(r.l, key, other, now);
    AfterFacts(Hits(r.l, other), now - r.l.windowMs, now);
    if key != other {
      assert Hits(Prune(r.l, key, now), other) == Hits(r.l, other);
    }
  }

  lemma AppendAgrees(seen: seq<int>, times: seq<int>, granted: seq<int>, cutoff: int, now: int)
    requires seen == After(times, cutoff) && Sorted(seen) && AtMost(seen, now) && AtMost(times, now)
    requires granted == [] || granted == [now]
    ensures After(seen + granted, cutoff) == After(times + granted, cutoff)
    ensures Sorted(seen + granted) && AtMost(seen + granted, now) && AtMost(times + granted, now)
  {
    hide After;
    AfterAppend(seen, granted, cutoff);
    AfterAppend(times, granted, cutoff);
    AfterAfter(times, cutoff, cutoff);
  }

  lemma LogGrows(r: Run, key: Key, other: Key, now: int)
    ensures var granted := if Take(r.l, key, now).1 && other == key then [now] else [];
            TimesOf(RunTake(r, key, now).log, other) == TimesOf(r.log, other) + granted
  {
    hide Take, TimesOf;
    TimesOfAppend(r.log, Hit(key, now), other);
    assert TimesOf(r.log, other) + [] == TimesOf(r.log, other);
  }

  lemma TakeKeepsAgreement(r: Run, key: Key, other: Key, now: int)
    requires KeyAgrees(r, other) && r.clock <= now
    ensures KeyAgrees(RunTake(r, key, now), other)
  {
    hide After, TimesOf, Take, Hits;
    TakeSees(r.l, key, other, now);
    LaterAgrees(r, other, now);
    LogGrows(r, key, other, now);
    var w := now - r.l.windowMs;
    if other == key {
      var granted := if Take(r.l, key, now).1 then [now] else [];
      AfterFacts(Hits(r.l, key), w, now);
      AppendAgrees(After(Hits(r.l, key), w), TimesOf(r.log, key), granted, w, now);
    } else {
      assert TimesOf(r.log, other) + [] == TimesOf(r.log, other);
    }
  }

  lemma TakeKeepsWindow(r: Run, key: Key, other: Key, now: int, hi: int)
    requires RunInv(r) && r.clock <= now
    ensures WindowOk(RunTake(r, key, now), other, hi)
  {
    var lo := hi - r.l.windowMs;
    assert WindowOk(r, other, hi) && KeyAgrees(r, key);
    TakeDecision(r, key, now);
    if Take(r.l, key, now).1 {
      TimesOfAppend(r.log, Hit(key, now), other);
      if other == key {
        CountAppend(TimesOf(r.log, key), now, lo, hi);
        if lo < now <= hi {
          CountAtMostAfter(TimesOf(r.log, key), lo, hi, now - r.l.windowMs);
        }
      } else {
        assert TimesOf(r.log, other) + [] == TimesOf(r.log, other);
      }
    }
  }

  lemma StepKeepsRunInv(r: Run, op: Op)
    requires RunInv(r) && r.clock <= op.now
    ensures RunInv(StepRun(r, op)) && StepRun(r, op).l.limit == r.l.limit && StepRun(r, op).l.windowMs == r.l.windowMs
  {
    var r' := StepRun(r, op);
    forall other: Key ensures KeyAgrees(r', other) {
      assert KeyAgrees(r, other);
      match op
      case TakeOp(key, now) => TakeKeepsAgreement(r, key, other, now);
      case RetryOp(key, now) => PruneKeepsAgreement(r, key, other, now);
    }
    forall other: Key, hi: int ensures WindowOk(r', other, hi) {
      assert WindowOk(r, other, hi);
      if op.TakeOp? {
        TakeKeepsWindow(r, op.key, other, op.now, hi);
      }
    }
  }

  lemma {:induction false} RunsKeepInv(r: Run, ops: seq<Op>)
    requires RunInv(r) && Monotone(r.clock, ops)
    ensures RunInv(RunOps(r, ops)) && RunOps(r, ops).l.limit == r.l.limit && RunOps(r, ops).l.windowMs == r.l.windowMs
    decreases |ops|
  {
    if ops != [] {
      StepKeepsRunInv(r, ops[0]);
      RunsKeepInv(StepRun(r, ops[0]), ops[1..]);
    }
  }

  lemma FreshRunInv(limit: nat, windowMs: int, clock: int)
    ensures RunInv(Run(NewLimiter(limit, windowMs), [], clock))
  {
    var r := Run(NewLimiter(limit, windowMs), [], clock);
    forall key: Key, hi: int ensures KeyAgrees(r, key) && WindowOk(r, key, hi) {
      assert Hits(r.l, key) == [] && TimesOf(r.log, key) == [];
    }
  }

  /** Main result: over any run on a clock that never goes back, no window of
    * `windowMs` ever holds more than `limit` accepted takes of one key. */
  lemma NoWindowExceedsLimit(limit: nat, windowMs: int, start: int, ops: seq<Op>, key: Key, hi: int)
    requires Monotone(start, ops)
    ensures Count(TimesOf(RunOps(Run(NewLimiter(limit, windowMs), [], start), ops).log, key), hi - windowMs, hi) <= limit
  {
    hide RunOps;
    var r := Run(NewLimiter(limit, windowMs), [], start);
    FreshRunInv(limit, windowMs, start);
    RunsKeepInv(r, ops);
    var last := RunOps(r, ops);
    assert WindowOk(last, key, hi);
  }

  /** What a refused caller holds: exactly `limit` hits, all inside the window. */
  lemma RefusedIsFull(r: Run, key: Key, now: int)
    requires RunInv(r) && r.clock <= now
    requires !Take(r.l, key, now).1
    ensures var seen := After(Hits(r.l, key), now - r.l.windowMs);
            |seen| == r.l.limit && Sorted(seen) && Above(seen, now - r.l.windowMs)
  {
    hide After, TimesOf, Take;
    var w := r.l.windowMs;
    assert KeyAgrees(r, key) && WindowOk(r, key, now);
    TakeDecision(r, key, now);
    LaterAgrees(r, key, now);
    CountAtMostAfter(TimesOf(r.log, key), now - w, now, now - w);
    AfterFacts(Hits(r.l, key), now - w, now);
  }

  /** What asking for the wait leaves behind, and the wait it reports. */
  lemma AskAfterRefusal(r: Run, key: Key, now: int)
    requires RunInv(r) && r.clock <= now
    requires !Take(r.l, key, now).1
    ensures var seen := After(Hits(r.l, key), now - r.l.windowMs);
            var refused := Take(r.l, key, now).0;
            var (asked, wait) := RetryAfter(refused, key, now);
            && Hits(asked, key) == seen && asked.limit == r.l.limit && asked.windowMs == r.l.windowMs
            && |seen| == r.l.limit && Above(seen, now - r.l.windowMs) && Sorted(seen)
            && (seen != [] ==> now + wait == seen[0] + r.l.windowMs)
  {
    hide Take, Prune, After, Sorted;
    var w := r.l.windowMs;
    var refused := Take(r.l, key, now).0;
    var seen := After(Hits(r.l, key), now - w);
    RefusedIsFull(r, key, now);
    TakeSees(r.l, key, key, now);
    assert seen + [] == seen;
    MaintenanceInvisible(refused, key, key, now);
    AfterAll(seen, now - w);
  }

  /** `retryAfterMs` is exact: after a refusal the same key is granted again at a later time
    * exactly when the reported wait has passed. A limit of zero never grants, whatever the wait. */
  lemma RetryAfterIsExact(r: Run, key: Key, now: int, later: int)
    requires RunInv(r) && r.clock <= now <= later
    requires !Take(r.l, key, now).1
    ensures var refused := Take(r.l, key, now).0;
            var (asked, wait) := RetryAfter(refused, key, now);
            Take(asked, key, later).1 <==> r.l.limit > 0 && later >= now + wait
  {
    hide Take, RetryAfter, RunInv;
    var w := r.l.windowMs;
    var seen := After(Hits(r.l, key), now - w);
    AskAfterRefusal(r, key, now);
    var asked := RetryAfter(Take(r.l, key, now).0, key, now).0;
    TakeSees(asked, key, key, later);
    if r.l.limit > 0 && later < seen[0] + w {
      AfterAll(seen, later - w);
    }
  }

  /** Nobody has to wait who would be let in, and nobody is let in who has to wait. */
  lemma NoWaitIffGranted(l: Limiter, key: Key, now: int)
    requires l.limit > 0
    ensures RetryAfter(l, key, now).1 >= 0
    ensures RetryAfter(l, key, now).1 == 0 <==> Take(l, key, now).1
  {
    var cutoff := now - l.windowMs;
    TakeSees(l, key, key, now);
    MaintenanceInvisible(l, key, key, now);
    AfterIsAbove(Hits(l, key), cutoff);
    hide Take, Prune, After;
  }

  lemma {:induction false} AfterIsAbove(times: seq<int>, cutoff: int)
    ensures Above(After(times, cutoff), cutoff)
  {
    if times != [] { AfterIsAbove(times[1..], cutoff); }
  }

  /** Eviction: once ten minutes have passed or fifty thousand keys are held, a take keeps no other key whose hits have all
    * left the window, and forgets nobody else. */
  lemma IdleKeysAreEvicted(l: Limiter, key: Key, now: int, other: Key)
    requires other != key
    ensures var due := now - l.lastSweep >= 600_000 || |l.hits| >= 50_000;
            other in Take(l, key, now).0.hits <==> other in l.hits && (due ==> exists i | 0 <= i < |l.hits[other]| :: now - l.windowMs < l.hits[other][i])
  {
    hide After;
  }

  // ---------------------------------------------------------------------------
  // The object
  // ---------------------------------------------------------------------------

  class RateLimiter {
    const limit: nat
    const windowMs: int
    /** key to the times of its hits inside the window, oldest first */
    var hits: map<Key, seq<int>>
    var lastSweep: int

    constructor (limit: nat, windowMs: int)
      ensures View() == NewLimiter(limit, windowMs)
    {
      this.limit := limit;
      this.windowMs := windowMs;
      hits := map[];
      lastSweep := 0;
    }

    ghost function View(): Limiter
      reads this
    {
      Limiter(limit, windowMs, hits, lastSweep)
    }

    method PruneKey(key: Key, now: int) returns (times: seq<int>)
      modifies this
      ensures View() == Prune(old(View()), key, now)
      ensures times == Hits(View(), key)
    {
      times := [];
      var all := if key in hits then hits[key] else [];
      for i := 0 to |all|
        invariant unchanged(this)
        invariant times == After(all[..i], now - windowMs)
      {
        assert all[..i + 1] == all[..i] + [all[i]];
        assert After([all[i]], now - windowMs) == if all[i] > now - windowMs then [all[i]] else [];
        AfterAppend(all[..i], [all[i]], now - windowMs);
        if all[i] > now - windowMs {
          times := times + [all[i]];
        }
      }
      assert all[..|all|] == all;
      if times == [] {
        hits := hits - {key};
      } else {
        hits := hits[key := times];
      }
    }

    method SweepIdle(now: int)
      modifies this
      ensures View() == Sweep(old(View()), now)
    {
      if now - lastSweep < IDLE_EVICT_MS && |hits| < MAX_KEYS {
        return;
      }
      lastSweep := now;
      var cutoff := now - windowMs;
      var rest := hits.Keys;
      while rest != {}
        invariant rest <= old(hits).Keys
        invariant lastSweep == now
        invariant hits == map k | k in old(hits) && (k in rest || !AtMost(old(hits)[k], cutoff)) :: old(hits)[k]
        decreases |rest|
      {
        var key :| key in rest;
        rest := rest - {key};
        if AtMost(hits[key], cutoff) {
          hits := hits - {key};
        }
      }
    }

    method TakeUnit(key: Key, now: int) returns (ok: bool)
      modifies this
      ensures (View(), ok) == Take(old(View()), key, now)
    {
      SweepIdle(now);
      var times := PruneKey(key, now);
      if |times| >= limit {
        return false;
      }
      hits := hits[key := times + [now]];
      return true;
    }

    method RetryAfterMs(key: Key, now: int) returns (ms: int)
      modifies this
      ensures (View(), ms) == RetryAfter(old(View()), key, now)
    {
      var times := PruneKey(key, now);
      if |times| == 0 || |times| < limit {
        return 0;
      }
      ms := times[0] + windowMs - now;
      if ms < 0 {
        ms := 0;
      }
    }

    method Reset()
      modifies this
      ensures View() == NewLimiter(limit, windowMs)
    {
      hits := map[];
      lastSweep := 0;
    }
  }
}
