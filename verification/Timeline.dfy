/** Playback arithmetic (packages/cast/src/timeline.ts), over exact times. */
module Timeline {
  import opened Options
  import opened Json
  import opened CastFormat

  /** How many events come before the first one later than `t`. */
  function Upto(events: seq<CastEvent>, t: real): (n: nat)
    ensures n <= |events|
  {
    if events == [] || events[0].time > t then 0 else 1 + Upto(events[1..], t)
  }

  lemma {:induction false} UptoSplits(events: seq<CastEvent>, t: real)
    ensures forall i | 0 <= i < Upto(events, t) :: events[i].time <= t
    ensures Upto(events, t) < |events| ==> events[Upto(events, t)].time > t
  {
    if events != [] && events[0].time <= t {
      UptoSplits(events[1..], t);
      forall i | 0 <= i < Upto(events, t) ensures events[i].time <= t {
        if i > 0 { assert events[i] == events[1..][i - 1]; }
      }
    }
  }

  /** With the events in order, the split is the only one there is. */
  lemma UptoIsUnique(events: seq<CastEvent>, t: real, n: nat)
    requires n <= |events|
    requires forall i | 0 <= i < n :: events[i].time <= t
    requires forall i | n <= i < |events| :: events[i].time > t
    ensures Upto(events, t) == n
  {
    var u := Upto(events, t);
    assert u < n ==> events[u].time <= t;
    assert u > n ==> events[n].time > t;
    UptoSplits(events, t);
  }

  /** Main result: the binary search. In any list it stays in bounds and never names a later event; in a
    * sorted one it is the last event at or before `t`, or -1 before the first. */
  method IndexAt(events: seq<CastEvent>, t: real) returns (found: int)
    ensures -1 <= found < |events| && (found >= 0 ==> events[found].time <= t)
    ensures Sorted(events) ==> found == Upto(events, t) - 1
    ensures Sorted(events) ==> forall i | 0 <= i < |events| :: events[i].time <= t <==> i <= found
  {
    var low := 0;
    var high := |events| - 1;
    found := -1;
    while low <= high
      invariant 0 <= low <= |events| && -1 <= high < |events| && low <= high + 1
      invariant -1 <= found < |events| && found == low - 1
      invariant found >= 0 ==> events[found].time <= t
      invariant Sorted(events) ==> forall i | 0 <= i < low :: events[i].time <= t
      invariant Sorted(events) ==> forall i | high < i < |events| :: events[i].time > t
      decreases high - low
    {
      var mid := (low + high) / 2;
      if events[mid].time <= t {
        found := mid;
        low := mid + 1;
      } else {
        high := mid - 1;
      }
    }
    if Sorted(events) { UptoIsUnique(events, t, low); }
  }

  method SliceUpTo(events: seq<CastEvent>, t: real) returns (slice: seq<CastEvent>)
    ensures slice <= events
    ensures Sorted(events) ==> slice == events[..Upto(events, t)]
  {
    var index := IndexAt(events, t);
    slice := events[..index + 1];
  }

  function Between(events: seq<CastEvent>, from: real, to: real): seq<CastEvent> {
    if to <= from || Upto(events, from) > Upto(events, to) then [] else events[Upto(events, from)..Upto(events, to)]
  }

  /** On any list it stays in bounds and takes a stretch of it, ending at an event no later than `to`. */
  method SliceBetween(events: seq<CastEvent>, from: real, to: real) returns (slice: seq<CastEvent>)
    ensures exists i, j | 0 <= i <= j <= |events| :: slice == events[i..j] && (i < j ==> events[j - 1].time <= to)
    ensures to <= from ==> slice == []
    ensures Sorted(events) ==> slice == Between(events, from, to)
  {
    if to <= from {
      assert events[0..0] == [];
      return [];
    }
    var first := IndexAt(events, from);
    var last := IndexAt(events, to);
    UptoIsMonotone(events, from, to);
    slice := if first <= last then events[first + 1..last + 1] else [];
    assert events[0..0] == [];
  }

  /** A slice holds the events in `(from, to]` and no others. */
  lemma BetweenHolds(events: seq<CastEvent>, from: real, to: real, i: nat)
    requires Sorted(events) && i < |events|
    ensures from < events[i].time <= to ==> events[i] in Between(events, from, to)
    ensures forall e | e in Between(events, from, to) :: from < e.time <= to
  {
    var a, b := Upto(events, from), Upto(events, to);
    UptoSplits(events, from);
    UptoSplits(events, to);
    hide Upto;
    if from < events[i].time <= to {
      assert a <= i;
      assert i < b;
      assert events[a..b][i - a] == events[i];
    }
    forall k | a <= k < b ensures from < events[k].time { assert a < |events| && events[a].time <= events[k].time; }
  }

  lemma {:induction false} UptoIsMonotone(events: seq<CastEvent>, a: real, b: real)
    requires a <= b
    ensures Upto(events, a) <= Upto(events, b)
  {
    if events != [] && events[0].time <= a { UptoIsMonotone(events[1..], a, b); }
  }

  /** The slices between consecutive cut points, one after the other. */
  function Tiles(events: seq<CastEvent>, cuts: seq<real>): seq<CastEvent> {
    if |cuts| < 2 then [] else Between(events, cuts[0], cuts[1]) + Tiles(events, cuts[1..])
  }

  predicate Increasing(cuts: seq<real>) {
    forall i | 0 < i < |cuts| :: cuts[i - 1] <= cuts[i]
  }

  /** Main result: consecutive slices over any increasing cut points are the whole span, with no gap and no repeat. */
  lemma {:induction false} SlicesTile(events: seq<CastEvent>, cuts: seq<real>)
    requires Increasing(cuts) && |cuts| > 0
    ensures cuts[0] <= cuts[|cuts| - 1] && Upto(events, cuts[0]) <= Upto(events, cuts[|cuts| - 1])
    ensures Tiles(events, cuts) == events[Upto(events, cuts[0])..Upto(events, cuts[|cuts| - 1])]
    decreases |cuts|
  {
    hide Upto;
    if |cuts| > 1 {
      var rest := cuts[1..];
      assert Increasing(rest) by { forall i | 0 < i < |rest| ensures rest[i - 1] <= rest[i] { assert cuts[i] <= cuts[i + 1]; } }
      assert cuts[0] <= cuts[1];
      SlicesTile(events, rest);
      UptoIsMonotone(events, cuts[0], cuts[1]);
      var a, b, c := Upto(events, cuts[0]), Upto(events, cuts[1]), Upto(events, cuts[|cuts| - 1]);
      assert events[a..b] + events[b..c] == events[a..c];
    }
  }

  // ---------------------------------------------------------------------------
  // Size and text
  // ---------------------------------------------------------------------------

  function Resized(size: Size, e: CastEvent): Size {
    if e.kind.Resize? && ParseSize(e.data).Some? then ParseSize(e.data).value else size
  }

  function SizeAfter(size: Size, events: seq<CastEvent>): Size {
    if events == [] then size else Resized(SizeAfter(size, events[..|events| - 1]), events[|events| - 1])
  }

  /** Main result: the size at `t` is the fold of the resizes over everything a seek to `t` replays. */
  method SizeAt(start: Size, events: seq<CastEvent>, t: real) returns (size: Size)
    ensures size == SizeAfter(start, events[..Upto(events, t)])
  {
    hide ParseSize;
    size := start;
    var i := 0;
    while i < |events|
      invariant 0 <= i <= |events|
      invariant Upto(events, t) == i + Upto(events[i..], t)
      invariant size == SizeAfter(start, events[..i])
    {
      assert events[i..][1..] == events[i + 1..];
      if events[i].time > t { break; }
      assert events[..i + 1][..i] == events[..i];
      if events[i].kind.Resize? {
        var parsed := ParseSize(events[i].data);
        if parsed.Some? { size := parsed.value; }
      }
      i := i + 1;
    }
    assert i == |events| ==> events[i..] == [];
  }

  function TextOf(events: seq<CastEvent>): Text {
    if events == [] then []
    else TextOf(events[..|events| - 1]) + if events[|events| - 1].kind.Output? then events[|events| - 1].data else []
  }

  method ConcatText(events: seq<CastEvent>) returns (out: Text)
    ensures out == TextOf(events)
  {
    out := [];
    for i := 0 to |events|
      invariant out == TextOf(events[..i])
    {
      assert events[..i + 1][..i] == events[..i];
      if events[i].kind.Output? { out := out + events[i].data; }
    }
    assert events[..|events|] == events;
  }

  lemma {:induction false} TextOfJoins(a: seq<CastEvent>, b: seq<CastEvent>)
    ensures TextOf(a + b) == TextOf(a) + TextOf(b)
    decreases |b|
  {
    if b == [] {
      assert a + b == a;
    } else {
      var n := |b| - 1;
      TextOfJoins(a, b[..n]);
      assert (a + b)[..|a + b| - 1] == a + b[..n];
      assert (a + b)[|a + b| - 1] == b[n];
    }
  }

  /** Offsets into the concatenated output: each event's is the length of the text before it. */
  method CompileCast(events: seq<CastEvent>) returns (duration: real, cumulative: seq<nat>, total: nat)
    ensures duration == CastDuration(events)
    ensures |cumulative| == |events| && total == |TextOf(events)|
    ensures forall i | 0 <= i < |events| :: cumulative[i] == |TextOf(events[..i])|
    ensures forall i | 0 <= i < |events| :: cumulative[i] <= total && TextOf(events)[..cumulative[i]] == TextOf(events[..i])
  {
    cumulative, total := [], 0;
    for i := 0 to |events|
      invariant |cumulative| == i && total == |TextOf(events[..i])|
      invariant forall k | 0 <= k < i :: cumulative[k] == |TextOf(events[..k])|
    {
      cumulative := cumulative + [total];
      assert events[..i + 1][..i] == events[..i];
      if events[i].kind.Output? { total := total + |events[i].data|; }
    }
    assert events[..|events|] == events;
    duration := CastDuration(events);
    forall i | 0 <= i < |events| ensures cumulative[i] <= total && TextOf(events)[..cumulative[i]] == TextOf(events[..i]) {
      assert events == events[..i] + events[i..];
      TextOfJoins(events[..i], events[i..]);
    }
  }

  /** Playing slice after slice writes what one seek to the end would have written. */
  lemma PlayingEqualsSeeking(events: seq<CastEvent>, cuts: seq<real>)
    requires Increasing(cuts) && |cuts| > 0
    ensures TextOf(events[..Upto(events, cuts[0])]) + TextOf(Tiles(events, cuts)) == TextOf(events[..Upto(events, cuts[|cuts| - 1])])
  {
    hide TextOf, Tiles, Increasing, Upto;
    SlicesTile(events, cuts);
    var a, c := Upto(events, cuts[0]), Upto(events, cuts[|cuts| - 1]);
    TextOfJoins(events[..a], events[a..c]);
    assert events[..a] + events[a..c] == events[..c];
  }

  // ---------------------------------------------------------------------------
  // Squashing idle time
  // ---------------------------------------------------------------------------

  function Min(a: real, b: real): real {
    if a < b then a else b
  }

  /** The time since the event before it; the first event counts from zero. */
  function Gap(events: seq<CastEvent>, i: nat): real
    requires i < |events|
  {
    events[i].time - if i == 0 then 0.0 else events[i - 1].time
  }

  /** Same events, gap by gap the smaller of the gap and the limit. */
  predicate IsSquashed(events: seq<CastEvent>, out: seq<CastEvent>, limit: real) {
    && |out| == |events|
    && (forall i | 0 <= i < |out| :: out[i] == events[i].(time := out[i].time))
    && (forall i | 0 <= i < |out| :: Gap(out, i) == Min(Gap(events, i), limit))
  }

  /** Main result: with a positive limit each gap becomes the smaller of itself and the limit, and nothing
    * else changes; otherwise the events come back as they were. */
  method SquashIdle(events: seq<CastEvent>, limit: real) returns (out: seq<CastEvent>)
    ensures limit <= 0.0 ==> out == events
    ensures limit > 0.0 ==> IsSquashed(events, out, limit)
  {
    if limit <= 0.0 { return events; }
    out := [];
    var previousSource := 0.0;
    var shift := 0.0;
    for n := 0 to |events|
      invariant |out| == n
      invariant previousSource == (if n == 0 then 0.0 else events[n - 1].time)
      invariant n == 0 ==> shift == 0.0
      invariant n > 0 ==> out[n - 1].time == events[n - 1].time - shift
      invariant forall i | 0 <= i < n :: out[i] == events[i].(time := out[i].time)
      invariant forall i | 0 <= i < n :: Gap(out, i) == Min(Gap(events, i), limit)
    {
      var gap := events[n].time - previousSource;
      if gap > limit { shift := shift + (gap - limit); }
      previousSource := events[n].time;
      ghost var before := out;
      out := out + [events[n].(time := events[n].time - shift)];
      assert forall i | 0 <= i < n :: Gap(out, i) == Gap(before, i);
    }
  }

  /** The gaps decide the list. */
  lemma {:induction false} SquashedAgree(events: seq<CastEvent>, a: seq<CastEvent>, b: seq<CastEvent>, limit: real, n: nat)
    requires IsSquashed(events, a, limit) && IsSquashed(events, b, limit) && n <= |events|
    ensures a[..n] == b[..n]
  {
    if n > 0 {
      SquashedAgree(events, a, b, limit, n - 1);
      assert Gap(a, n - 1) == Gap(b, n - 1);
      assert n > 1 ==> a[..n - 1][n - 2] == b[..n - 1][n - 2];
      assert a[..n] == a[..n - 1] + [a[n - 1]] && b[..n] == b[..n - 1] + [b[n - 1]];
    }
  }

  /** Main result: squashing twice is squashing once. */
  lemma SquashingIsIdempotent(events: seq<CastEvent>, once: seq<CastEvent>, twice: seq<CastEvent>, limit: real)
    requires limit > 0.0 && IsSquashed(events, once, limit) && IsSquashed(once, twice, limit)
    ensures twice == once
  {
    assert IsSquashed(once, once, limit) by {
      forall i | 0 <= i < |once| ensures Gap(once, i) == Min(Gap(once, i), limit) { assert Gap(once, i) == Min(Gap(events, i), limit); }
    }
    SquashedAgree(once, once, twice, limit, |once|);
    assert once[..|once|] == once && twice[..|once|] == twice;
  }

  /** Between two events of a sorted list squashing keeps strict order and never widens the distance. */
  lemma {:induction false} SquashedOrder(events: seq<CastEvent>, out: seq<CastEvent>, limit: real, i: nat, j: nat)
    requires limit > 0.0 && IsSquashed(events, out, limit) && Sorted(events) && i <= j < |events|
    ensures 0.0 <= out[j].time - out[i].time <= events[j].time - events[i].time
    ensures events[i].time < events[j].time <==> out[i].time < out[j].time
    decreases j - i
  {
    if i < j {
      SquashedOrder(events, out, limit, i, j - 1);
      assert Gap(out, j) == Min(Gap(events, j), limit);
      assert events[j - 1].time <= events[j].time;
    }
  }

  /** Main result: on a sorted cast squashing keeps the order, and seeking to an event's new time finds the
    * same place as seeking to its old one. */
  lemma SquashingKeepsThePlace(events: seq<CastEvent>, out: seq<CastEvent>, limit: real, k: nat)
    requires limit > 0.0 && IsSquashed(events, out, limit) && Sorted(events) && k < |events|
    ensures Sorted(out)
    ensures Upto(out, out[k].time) == Upto(events, events[k].time)
  {
    forall i, j | 0 <= i < j < |out| ensures out[i].time <= out[j].time { SquashedOrder(events, out, limit, i, j); }
    var n := Upto(events, events[k].time);
    UptoSplits(events, events[k].time);
    forall i | 0 <= i < n ensures out[i].time <= out[k].time {
      if i <= k { SquashedOrder(events, out, limit, i, k); } else { SquashedOrder(events, out, limit, k, i); }
    }
    forall i | n <= i < |out| ensures out[i].time > out[k].time {
      assert events[i].time > events[k].time by { if i > n { assert events[n].time <= events[i].time; } }
      SquashedOrder(events, out, limit, k, i);
    }
    UptoIsUnique(out, out[k].time, n);
  }
}
