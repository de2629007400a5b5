/** UTF-8 as a stream writes it and as a browser's `TextDecoder` reads it, over UTF-16 code units. */
module Utf8 {
  import opened Json
  import Bytes

  type Byte = Bytes.Byte

  const REPLACEMENT: Unit := 0xFFFD

  // ---------------------------------------------------------------------------
  // Encoding
  // ---------------------------------------------------------------------------

  predicate StartsPair(s: Text) {
    |s| >= 2 && High(s[0]) && Low(s[1])
  }

  /** The first code point; a surrogate alone is written as the replacement character. */
  function FirstPoint(s: Text): nat
    requires s != []
  {
    if StartsPair(s) then 0x1_0000 + (s[0] - 0xD800) * 0x400 + (s[1] - 0xDC00)
    else if High(s[0]) || Low(s[0]) then REPLACEMENT
    else s[0]
  }

  function PointBytes(p: nat): (r: seq<Byte>)
    requires p < 0x11_0000
    ensures r != []
  {
    if p < 0x80 then [p]
    else if p < 0x800 then [0xC0 + p / 64, 0x80 + p % 64]
    else if p < 0x1_0000 then [0xE0 + p / 64 / 64, 0x80 + p / 64 % 64, 0x80 + p % 64]
    else [0xF0 + p / 64 / 64 / 64, 0x80 + p / 64 / 64 % 64, 0x80 + p / 64 % 64, 0x80 + p % 64]
  }

  /** How many units the first code point takes. */
  function FirstWidth(s: Text): (n: nat)
    requires s != []
    ensures 0 < n <= |s|
  {
    if StartsPair(s) then 2 else 1
  }

  function Encode(s: Text): seq<Byte>
    decreases |s|
  {
    if s == [] then [] else PointBytes(FirstPoint(s)) + Encode(s[FirstWidth(s)..])
  }

  /** Every surrogate stands in a pair. */
  predicate Paired(s: Text)
    decreases |s|
  {
    s == [] || ((StartsPair(s) || (!High(s[0]) && !Low(s[0]))) && Paired(s[FirstWidth(s)..]))
  }

  // ---------------------------------------------------------------------------
  // Decoding
  // ---------------------------------------------------------------------------

  /** How many bytes must follow a first byte; none if it cannot be one. */
  function Following(lead: Byte): nat {
    if 0xC2 <= lead <= 0xDF then 1 else if 0xE0 <= lead <= 0xEF then 2 else if 0xF0 <= lead <= 0xF4 then 3 else 0
  }

  predicate GoodSecond(lead: Byte, b: Byte) {
    (if lead == 0xE0 then 0xA0 else if lead == 0xF0 then 0x90 else 0x80) <= b <= (if lead == 0xED then 0x9F else if lead == 0xF4 then 0x8F else 0xBF)
  }

  /** How many of the following bytes are there and good, up to the first that is not. */
  function Good(lead: Byte, rest: seq<Byte>): (k: nat)
    ensures k <= |rest| && k <= Following(lead)
  {
    var n := Following(lead);
    if n == 0 || rest == [] || !GoodSecond(lead, rest[0]) then 0
    else if n == 1 || |rest| == 1 || !(0x80 <= rest[1] <= 0xBF) then 1
    else if n == 2 || |rest| == 2 || !(0x80 <= rest[2] <= 0xBF) then 2
    else 3
  }

  function Above(b: int, base: int): int {
    b - base
  }

  function Point(lead: Byte, rest: seq<Byte>): int
    requires 0 < Following(lead) <= |rest|
  {
    if Following(lead) == 1 then Above(lead, 0xC0) * 64 + Above(rest[0], 0x80)
    else if Following(lead) == 2 then (Above(lead, 0xE0) * 64 + Above(rest[0], 0x80)) * 64 + Above(rest[1], 0x80)
    else ((Above(lead, 0xF0) * 64 + Above(rest[0], 0x80)) * 64 + Above(rest[1], 0x80)) * 64 + Above(rest[2], 0x80)
  }

  function Units(p: int): Text {
    if 0 <= p < 0x1_0000 then [p]
    else if 0x1_0000 <= p < 0x11_0000 then [0xD800 + (p - 0x1_0000) / 0x400, 0xDC00 + (p - 0x1_0000) % 0x400]
    else [REPLACEMENT]
  }

  /** Ill-formed bytes, and a sequence the end cuts short, become one replacement character each. */
  function Decode(bytes: seq<Byte>): Text
    decreases |bytes|
  {
    if bytes == [] then []
    else if bytes[0] < 0x80 then [bytes[0]] + Decode(bytes[1..])
    else
      var k := Good(bytes[0], bytes[1..]);
      if k == 0 || k < Following(bytes[0]) then [REPLACEMENT] + Decode(bytes[1 + k..])
      else Units(Point(bytes[0], bytes[1..])) + Decode(bytes[1 + k..])
  }

  // ---------------------------------------------------------------------------
  // Round trip, whole and cut
  // ---------------------------------------------------------------------------

  /** A code point that is no surrogate reads back, whatever follows it. */
  lemma PointReadsBack(p: nat, rest: seq<Byte>)
    requires p < 0x11_0000 && !(0xD800 <= p < 0xE000)
    ensures Decode(PointBytes(p) + rest) == Units(p) + Decode(rest)
  {
    var b := PointBytes(p);
    var all := b + rest;
    assert all[|b|..] == rest;
    if p >= 0x80 {
      var lead, more := all[0], all[1..];
      assert lead == b[0] && more[0] == b[1];
      if p >= 0x800 { assert more[1] == b[2]; }
      if p >= 0x1_0000 { assert more[2] == b[3]; }
      PointFollows(p, more);
      hide PointBytes, Good, Point;
    }
  }

  lemma PointFollows(p: nat, more: seq<Byte>)
    requires 0x80 <= p < 0x11_0000 && !(0xD800 <= p < 0xE000)
    requires var b := PointBytes(p); |more| >= |b| - 1 && forall i | 1 <= i < |b| :: more[i - 1] == b[i]
    ensures var b := PointBytes(p);
            Following(b[0]) == |b| - 1 && b[0] >= 0x80 && Good(b[0], more) == |b| - 1 && Point(b[0], more) == p
  {
    var b := PointBytes(p);
    var q := p / 64;
    var r := q / 64;
    assert p == q * 64 + p % 64 && q == r * 64 + q % 64;
    assert more[0] == b[1];
    if p < 0x800 {
    } else if p < 0x1_0000 {
      assert more[1] == b[2];
    } else {
      assert more[1] == b[2] && more[2] == b[3];
      assert r == r / 64 * 64 + r % 64;
    }
  }

  /** Cut short, it is one replacement character. */
  lemma CutPoint(p: nat, n: nat)
    requires p < 0x11_0000 && !(0xD800 <= p < 0xE000) && 0 < n < |PointBytes(p)|
    ensures Decode(PointBytes(p)[..n]) == [REPLACEMENT]
  {
    var b := PointBytes(p);
    var cut := b[..n];
    assert cut[0] == b[0] && cut[1..] == b[1..n];
    assert Following(b[0]) == |b| - 1;
    assert Good(b[0], cut[1..]) == n - 1;
    assert cut[n..] == [];
  }

  lemma PairUnits(high: nat, low: nat)
    requires high < 0x400 && low < 0x400
    ensures Units(0x1_0000 + high * 0x400 + low) == [0xD800 + high, 0xDC00 + low]
  {
    var x := high * 0x400 + low;
    assert x / 0x400 == high && x % 0x400 == low;
  }

  lemma FirstUnits(s: Text)
    requires s != [] && Paired(s)
    ensures FirstPoint(s) < 0x11_0000 && !(0xD800 <= FirstPoint(s) < 0xE000)
    ensures Units(FirstPoint(s)) == s[..FirstWidth(s)] && Paired(s[FirstWidth(s)..])
    ensures s == s[..FirstWidth(s)] + s[FirstWidth(s)..]
  {
    if StartsPair(s) {
      PairUnits(s[0] - 0xD800, s[1] - 0xDC00);
      hide Units;
      assert s[..2] == [s[0], s[1]];
    } else {
      assert s[..1] == [s[0]];
    }
  }

  /** Main result: what was encoded reads back, whatever bytes follow. */
  lemma {:induction false} DecodeInvertsEncode(s: Text, rest: seq<Byte>)
    requires Paired(s)
    ensures Decode(Encode(s) + rest) == s + Decode(rest)
    decreases |s|
  {
    hide Decode, PointBytes, FirstPoint, Units;
    if s == [] {
      assert Encode(s) + rest == rest;
    } else {
      FirstUnits(s);
      var w := FirstWidth(s);
      var b := PointBytes(FirstPoint(s));
      assert Encode(s) + rest == b + (Encode(s[w..]) + rest);
      PointReadsBack(FirstPoint(s), Encode(s[w..]) + rest);
      DecodeInvertsEncode(s[w..], rest);
      assert s + Decode(rest) == s[..w] + (s[w..] + Decode(rest));
    }
  }

  lemma {:induction false} EncodeJoins(a: Text, b: Text)
    requires Paired(a)
    ensures Encode(a + b) == Encode(a) + Encode(b)
    decreases |a|
  {
    hide PointBytes;
    if a == [] {
      assert a + b == b;
    } else {
      var w := FirstWidth(a);
      assert (a + b)[w..] == a[w..] + b;
      EncodeJoins(a[w..], b);
      assert FirstPoint(a + b) == FirstPoint(a) && FirstWidth(a + b) == w;
    }
  }

  lemma {:induction false} PairedJoins(a: Text, b: Text)
    requires Paired(a) && Paired(b)
    ensures Paired(a + b)
    decreases |a|
  {
    if a == [] {
      assert a + b == b;
    } else {
      var w := FirstWidth(a);
      assert (a + b)[w..] == a[w..] + b;
      PairedJoins(a[w..], b);
    }
  }

  /** What a byte prefix of an encoded text reads as: a prefix of the text, or, when the cut falls inside the
    * bytes of a code point, the prefix before it and one replacement character. */
  predicate ReadsAs(s: Text, bytes: seq<Byte>, p: Text) {
    && p <= s && Encode(p) <= bytes
    && (Decode(bytes) == p || (Decode(bytes) == p + [REPLACEMENT] && |p| < |s| && s[|p|] >= 0x80))
  }

  lemma WidthOfPoint(s: Text)
    requires s != [] && Paired(s)
    ensures |PointBytes(FirstPoint(s))| <= 4 && (|PointBytes(FirstPoint(s))| > 1 ==> s[0] >= 0x80)
  {
  }

  lemma Glue<T>(a: seq<T>, x: seq<T>, y: seq<T>)
    requires x <= y
    ensures a + x <= a + y
  {
  }

  lemma ReadsAsWithFirst(s: Text, bytes: seq<Byte>, q: Text)
    requires s != [] && Paired(s) && PointBytes(FirstPoint(s)) <= bytes && Paired(q)
    requires ReadsAs(s[FirstWidth(s)..], bytes[|PointBytes(FirstPoint(s))|..], q)
    ensures ReadsAs(s, bytes, s[..FirstWidth(s)] + q)
  {
    hide PointBytes, Decode, FirstPoint, FirstWidth, Units, Paired, Encode;
    FirstUnits(s);
    PrefixWithFirst(s, q);
    var w := FirstWidth(s);
    var b := PointBytes(FirstPoint(s));
    var rest := bytes[|b|..];
    var p := s[..w] + q;
    assert bytes == b + rest;
    PointReadsBack(FirstPoint(s), rest);
    Glue(b, Encode(q), rest);
    if Decode(rest) == q {
      assert Decode(bytes) == p;
    } else {
      assert s[|p|] == s[w..][|q|];
      assert p + [REPLACEMENT] == s[..w] + (q + [REPLACEMENT]);
      assert Decode(bytes) == p + [REPLACEMENT];
    }
  }

  /** Main result: cut the bytes of a text anywhere. */
  lemma AnyByteCutReads(s: Text, bytes: seq<Byte>) returns (p: Text)
    requires Paired(s) && bytes <= Encode(s)
    ensures ReadsAs(s, bytes, p) && Paired(p) && |bytes| < |Encode(p)| + 4
    decreases |s|
  {
    if s == [] {
      p := [];
    } else {
      var w := FirstWidth(s);
      var b := PointBytes(FirstPoint(s));
      FirstUnits(s);
      WidthOfPoint(s);
      hide PointBytes, FirstPoint, Units, Good, Point;
      if |bytes| >= |b| {
        hide Decode, ReadsAs;
        assert bytes[..|b|] == b;
        var q := AnyByteCutReads(s[w..], bytes[|b|..]);
        p := s[..w] + q;
        PrefixWithFirst(s, q);
        ReadsAsWithFirst(s, bytes, q);
      } else {
        p := [];
        assert bytes == b[..|bytes|];
        if bytes != [] { CutPoint(FirstPoint(s), |bytes|); }
      }
    }
  }

  lemma PrefixWithFirst(s: Text, q: Text)
    requires s != [] && Paired(s) && q <= s[FirstWidth(s)..] && Paired(q)
    ensures var p := s[..FirstWidth(s)] + q;
            p <= s && Paired(p) && Encode(p) == PointBytes(FirstPoint(s)) + Encode(q)
  {
    var w := FirstWidth(s);
    var p := s[..w] + q;
    hide PointBytes;
    assert p[w..] == q && FirstWidth(p) == w && FirstPoint(p) == FirstPoint(s);
  }

  predicate Ascii(s: Text) {
    forall i | 0 <= i < |s| :: s[i] < 0x80
  }

  lemma {:induction false} AsciiIsPaired(s: Text)
    requires Ascii(s)
    ensures Paired(s)
  {
    if s != [] { AsciiIsPaired(s[1..]); }
  }
}
