/** Byte-level encodings shared by the crypto code (packages/crypto/src/bytes.ts).

  JavaScript's bitwise operators are written out as arithmetic: `ToUint32` and `ToInt32` are the
  conversions they start with, a left shift multiplies, a right shift divides rounding down, and an
  OR of values with no bit in common is a sum.
 */
module Bytes {
  import opened Options

  type Byte = x: int | 0 <= x < 256
  type Sextet = x: int | 0 <= x < 64

  const TWO_32: int := 0x1_0000_0000

  function ToUint32(n: int): (r: int)
    ensures 0 <= r < 0x1_0000_0000
  {
    n % 0x1_0000_0000
  }

  function ToInt32(n: int): (r: int)
    ensures -0x8000_0000 <= r < 0x8000_0000
    ensures (r - n) % 0x1_0000_0000 == 0
  {
    var u := n % 0x1_0000_0000;
    if u < 0x8000_0000 then u else u - 0x1_0000_0000
  }

  // ---------------------------------------------------------------------------
  // LEB128 (section 7.6 of DWARF 5)
  // ---------------------------------------------------------------------------

  function Leb(n: nat): (r: seq<Byte>)
    ensures r != []
  {
    if n < 128 then [n] else [n % 128 + 128] + Leb(n / 128)
  }

  /** The low seven bits come first, and a set high bit says that more follow. */
  lemma LowBitsComeFirst(n: nat)
    ensures Leb(n)[0] % 128 == n % 128
    ensures Leb(n)[0] >= 128 <==> n >= 128
    ensures n >= 128 ==> Leb(n)[1..] == Leb(n / 128)
  {
  }

  /** Reads one LEB128 number off the front. */
  function Unleb(bytes: seq<Byte>): Option<(nat, seq<Byte>)> {
    if bytes == [] then None
    else if bytes[0] < 128 then Some((bytes[0], bytes[1..]))
    else
      match Unleb(bytes[1..])
      case None => None
      case Some((high, rest)) => Some((high * 128 + bytes[0] - 128, rest))
  }

  /** What is still to be written once the low bits are gone. */
  function LebRest(n: nat): seq<Byte> {
    if n == 0 then [] else Leb(n)
  }

  lemma LebUnrolls(n: nat)
    ensures Leb(n) == [n % 128 + (if n / 128 > 0 then 128 else 0)] + LebRest(n / 128)
  {
  }

  lemma LowBitsSurvive(n: int)
    ensures ToUint32(n) % 128 == n % 128
    ensures 0 <= n < TWO_32 ==> ToUint32(n) == n
  {
    assert n == n / 0x1_0000_0000 * 0x1_0000_0000 + ToUint32(n);
  }

  /** The encoder's loop. A negative number is refused; anything above 32 bits wraps at the first shift. */
  method Leb128(value: int) returns (r: Option<seq<Byte>>)
    ensures value < 0 ==> r == None
    ensures value >= 0 ==> r == Some(Leb(ToUint32(value)))
  {
    hide Leb, LebRest, ToUint32;
    if value < 0 { return None; }
    LowBitsSurvive(value);
    LebUnrolls(ToUint32(value));
    var byte := value % 128;
    var n := ToUint32(value) / 128;
    if n > 0 { byte := byte + 128; }
    var out: seq<Byte> := [byte];
    while n > 0
      invariant 0 <= n < TWO_32
      invariant out + LebRest(n) == Leb(ToUint32(value))
      decreases n
    {
      byte, n := LebTurn(n);
      out := out + [byte];
    }
    NothingLeft(out);
    r := Some(out);
  }

  lemma NothingLeft(out: seq<Byte>)
    ensures out + LebRest(0) == out
  {
  }

  /** One turn of the loop: the next byte and what is left. */
  method LebTurn(n: nat) returns (byte: Byte, left: nat)
    requires 0 < n < TWO_32
    ensures left < n && left < TWO_32
    ensures forall out: seq<Byte> :: out + [byte] + LebRest(left) == out + LebRest(n)
  {
    LowBitsSurvive(n);
    LebUnrolls(n);
    var low := n % 128;
    left := ToUint32(n) / 128;
    byte := if left > 0 then low + 128 else low;
    hide Leb, ToUint32;
    forall out: seq<Byte> ensures out + [byte] + LebRest(left) == out + LebRest(n) {
      assert LebRest(n) == [byte] + LebRest(left);
    }
  }

  /** Reading back what was written returns the number and leaves what followed, so no encoding is a
    * prefix of another's and a stream of them can be cut only one way. */
  lemma {:induction false} LebReadsBack(n: nat, rest: seq<Byte>)
    ensures Unleb(Leb(n) + rest) == Some((n, rest))
  {
    if n < 128 {
      assert (Leb(n) + rest)[1..] == rest;
    } else {
      LebReadsBack(n / 128, rest);
      assert (Leb(n) + rest)[1..] == Leb(n / 128) + rest;
    }
  }

  /** Main result: the 32-bit shift loses the high bits, and that is the only way to lose anything. */
  lemma LebIsExactBelow32Bits(value: nat, rest: seq<Byte>)
    ensures Unleb(Leb(ToUint32(value)) + rest) == Some((value, rest)) <==> value < TWO_32
  {
    LebReadsBack(ToUint32(value), rest);
  }

  lemma LebIsPrefixFree(m: nat, n: nat)
    requires Leb(m) <= Leb(n)
    ensures m == n
  {
    LebReadsBack(m, Leb(n)[|Leb(m)|..]);
    LebReadsBack(n, []);
    assert Leb(m) + Leb(n)[|Leb(m)|..] == Leb(n) == Leb(n) + [];
  }

  /** No longer than five bytes for a 32-bit value: the loop runs at most five times. */
  lemma LebLength(n: nat)
    requires n < TWO_32
    ensures |Leb(n)| <= 5
  {
    var a := n / 128;
    var b := a / 128;
    var d := b / 128;
    var e := d / 128;
    assert e < 128 && |Leb(e)| == 1;
    assert |Leb(d)| <= 2;
    assert |Leb(b)| <= 3;
    assert |Leb(a)| <= 4;
  }

  // ---------------------------------------------------------------------------
  // Length-prefixed concatenation (section 5 of draft-irtf-cfrg-cpace)
  // ---------------------------------------------------------------------------

  function PrependLen(value: seq<Byte>): seq<Byte> {
    Leb(ToUint32(|value|)) + value
  }

  function LvCat(values: seq<seq<Byte>>): seq<Byte> {
    if values == [] then [] else PrependLen(values[0]) + LvCat(values[1..])
  }

  /** Cuts a transcript back into fields. */
  function Fields(bytes: seq<Byte>): Option<seq<seq<Byte>>>
    decreases |bytes|
  {
    if bytes == [] then Some([])
    else
      match Unleb(bytes)
      case None => None
      case Some((n, rest)) =>
        if n > |rest| || |rest| >= |bytes| then None
        else
          match Fields(rest[n..])
          case None => None
          case Some(more) => Some([rest[..n]] + more)
  }

  lemma {:induction false} FieldsInvertLvCat(values: seq<seq<Byte>>)
    requires forall v | v in values :: |v| < TWO_32
    ensures Fields(LvCat(values)) == Some(values)
  {
    if values != [] {
      var v := values[0];
      var tail := LvCat(values[1..]);
      assert v in values;
      FieldsInvertLvCat(values[1..]);
      LowBitsSurvive(|v|);
      assert LvCat(values) == Leb(|v|) + (v + tail) by { hide Leb; assert Leb(|v|) + v + tail == Leb(|v|) + (v + tail); }
      FirstFieldReads(v, tail);
      assert [v] + values[1..] == values;
      hide LvCat, Fields, Leb, Unleb;
    }
  }

  /** A field in front of a transcript is the first field read. */
  lemma FirstFieldReads(v: seq<Byte>, tail: seq<Byte>)
    ensures Fields(Leb(|v|) + (v + tail)) == match Fields(tail) case None => None case Some(more) => Some([v] + more)
  {
    LebReadsBack(|v|, v + tail);
    hide Leb, Unleb;
    var whole := Leb(|v|) + (v + tail);
    assert (v + tail)[..|v|] == v && (v + tail)[|v|..] == tail;
    assert |v + tail| < |whole|;
  }

  /** Main result: two lists of fields with the same transcript are the same list, whatever their
    * lengths and however many fields each has. */
  lemma LvCatIsInjective(xs: seq<seq<Byte>>, ys: seq<seq<Byte>>)
    requires forall v | v in xs :: |v| < TWO_32
    requires forall v | v in ys :: |v| < TWO_32
    requires LvCat(xs) == LvCat(ys)
    ensures xs == ys
  {
    FieldsInvertLvCat(xs);
    FieldsInvertLvCat(ys);
  }

  // ---------------------------------------------------------------------------
  // Constant-time comparison
  // ---------------------------------------------------------------------------

  method ConstantTimeEqual(a: seq<bv8>, b: seq<bv8>) returns (equal: bool)
    ensures equal <==> a == b
  {
    if |a| != |b| { return false; }
    var diff: bv8 := 0;
    for i := 0 to |a|
      invariant diff == 0 <==> a[..i] == b[..i]
    {
      var before := diff;
      diff := diff | (a[i] ^ b[i]);
      OrIsZero(before, a[i], b[i]);
      assert a[..i + 1] == a[..i] + [a[i]] && b[..i + 1] == b[..i] + [b[i]];
    }
    assert a[..|a|] == a && b[..|b|] == b;
    equal := diff == 0;
  }

  lemma OrIsZero(diff: bv8, x: bv8, y: bv8)
    ensures diff | (x ^ y) == 0 <==> diff == 0 && x == y
  {
  }

  // ---------------------------------------------------------------------------
  // base64url (section 5 of RFC 4648)
  // ---------------------------------------------------------------------------

  /** The alphabet in order: A to Z, a to z, 0 to 9, `-`, `_`. */
  function CharOf(x: Sextet): char {
    if x < 26 then 'A' + x as char
    else if x < 52 then 'a' + (x - 26) as char
    else if x < 62 then '0' + (x - 52) as char
    else if x == 62 then '-'
    else '_'
  }

  function IndexOf(ch: char): Option<Sextet> {
    if 'A' <= ch <= 'Z' then Some((ch - 'A') as int)
    else if 'a' <= ch <= 'z' then Some((ch - 'a') as int + 26)
    else if '0' <= ch <= '9' then Some((ch - '0') as int + 52)
    else if ch == '-' then Some(62)
    else if ch == '_' then Some(63)
    else None
  }

  // Three bytes make four sextets and back.
  function Sextet1(a: Byte): Sextet { a / 4 }
  function Sextet2(a: Byte, b: Byte): Sextet { a % 4 * 16 + b / 16 }
  function Sextet3(b: Byte, c: Byte): Sextet { b % 16 * 4 + c / 64 }
  function Sextet4(c: Byte): Sextet { c % 64 }
  function Byte1(w: Sextet, x: Sextet): Byte { w * 4 + x / 16 }
  function Byte2(x: Sextet, y: Sextet): Byte { x % 16 * 16 + y / 4 }
  function Byte3(y: Sextet, z: Sextet): Byte { y % 4 * 64 + z }

  /** The URL-safe alphabet (section 5 of RFC 4648): capitals, small letters, digits, a dash and an underscore, each run in order. */
  lemma AlphabetIsUrlSafe(x: Sextet)
    ensures CharOf(0) == 'A' && CharOf(25) == 'Z' && CharOf(26) == 'a' && CharOf(51) == 'z'
    ensures CharOf(52) == '0' && CharOf(61) == '9' && CharOf(62) == '-' && CharOf(63) == '_'
    ensures x !in {25, 51, 61, 62, 63} ==> CharOf(x + 1) as int == CharOf(x) as int + 1
    ensures IndexOf(CharOf(x)) == Some(x)
  {
  }

  /** Four characters spell the number their three bytes do, most significant first. */
  lemma GroupsKeepTheirValue(a: Byte, b: Byte, c: Byte)
    ensures ((Sextet1(a) * 64 + Sextet2(a, b)) * 64 + Sextet3(b, c)) * 64 + Sextet4(c) == (a * 256 + b) * 256 + c
  {
  }

  /** Six bits at a time: what the text of these bytes spells. */
  function Sextets(bytes: seq<Byte>): seq<Sextet> {
    if bytes == [] then []
    else if |bytes| == 1 then [Sextet1(bytes[0]), Sextet2(bytes[0], 0)]
    else if |bytes| == 2 then [Sextet1(bytes[0]), Sextet2(bytes[0], bytes[1]), Sextet3(bytes[1], 0)]
    else [Sextet1(bytes[0]), Sextet2(bytes[0], bytes[1]), Sextet3(bytes[1], bytes[2]), Sextet4(bytes[2])] + Sextets(bytes[3..])
  }

  /** Eight bits at a time; bits that do not fill a byte are dropped. */
  function Octets(s: seq<Sextet>): seq<Byte> {
    if |s| < 2 then []
    else if |s| == 2 then [Byte1(s[0], s[1])]
    else if |s| == 3 then [Byte1(s[0], s[1]), Byte2(s[1], s[2])]
    else [Byte1(s[0], s[1]), Byte2(s[1], s[2]), Byte3(s[2], s[3])] + Octets(s[4..])
  }

  function Spell(s: seq<Sextet>): (text: string)
    ensures |text| == |s| && forall i | 0 <= i < |s| :: text[i] == CharOf(s[i])
  {
    seq(|s|, i requires 0 <= i < |s| => CharOf(s[i]))
  }

  function Encode(bytes: seq<Byte>): string {
    Spell(Sextets(bytes))
  }

  function StripPadding(text: string): string {
    if text != "" && text[|text| - 1] == '=' then StripPadding(text[..|text| - 1]) else text
  }

  function Indexes(text: string): Option<seq<Sextet>> {
    if text == "" then Some([])
    else
      match (IndexOf(text[0]), Indexes(text[1..]))
      case (Some(x), Some(rest)) => Some([x] + rest)
      case _ => None
  }

  /** What the decoder means: the bytes its characters spell, or nothing when one is not in the alphabet. */
  function Decode(text: string): Option<seq<Byte>> {
    match Indexes(StripPadding(text))
    case None => None
    case Some(s) => Some(Octets(s))
  }

  lemma {:induction false} SextetsOfGroups(whole: seq<Byte>, more: seq<Byte>)
    requires |whole| % 3 == 0
    ensures Sextets(whole + more) == Sextets(whole) + Sextets(more)
  {
    hide Sextet1, Sextet2, Sextet3, Sextet4;
    if whole == [] {
      assert whole + more == more;
    } else {
      SextetsOfGroups(whole[3..], more);
      assert (whole + more)[3..] == whole[3..] + more;
    }
  }

  lemma SpellAppends(s: seq<Sextet>, t: seq<Sextet>)
    ensures Spell(s + t) == Spell(s) + Spell(t)
  {
  }

  /** One pass of the encoder's loop: up to three bytes, stopping where they run out. */
  method EncodeGroup(group: seq<Byte>) returns (out: string)
    requires 1 <= |group| <= 3
    ensures out == Encode(group)
  {
    hide CharOf, Sextet1, Sextet2, Sextet3, Sextet4;
    var b0 := group[0];
    var b1 := if 1 < |group| then group[1] else 0;
    var b2 := if 2 < |group| then group[2] else 0;
    out := [CharOf(Sextet1(b0))];
    out := out + [CharOf(Sextet2(b0, b1))];
    if |group| == 1 {
      assert out == Spell([Sextet1(b0), Sextet2(b0, 0)]);
      return;
    }
    out := out + [CharOf(Sextet3(b1, b2))];
    if |group| == 2 {
      assert out == Spell([Sextet1(b0), Sextet2(b0, b1), Sextet3(b1, 0)]);
      return;
    }
    out := out + [CharOf(Sextet4(b2))];
    assert Sextets(group) == [Sextet1(b0), Sextet2(b0, b1), Sextet3(b1, b2), Sextet4(b2)] + Sextets(group[3..]);
    assert out == Spell([Sextet1(b0), Sextet2(b0, b1), Sextet3(b1, b2), Sextet4(b2)]);
  }

  method BytesToBase64Url(bytes: seq<Byte>) returns (out: string)
    ensures out == Encode(bytes)
  {
    assert Encode([]) == "";
    hide Sextets, Spell;
    out := "";
    var i := 0;
    while i < |bytes|
      invariant 0 <= i <= |bytes| && (i % 3 == 0 || i == |bytes|)
      invariant out == Encode(bytes[..i])
    {
      var end := if i + 3 < |bytes| then i + 3 else |bytes|;
      var chars := EncodeGroup(bytes[i..end]);
      SextetsOfGroups(bytes[..i], bytes[i..end]);
      SpellAppends(Sextets(bytes[..i]), Sextets(bytes[i..end]));
      assert bytes[..i] + bytes[i..end] == bytes[..end];
      out := out + chars;
      i := end;
    }
    assert bytes[..i] == bytes;
  }

  /** One character through the decoder's accumulator, which shifts left and is never masked. */
  function Shifted(acc: int, x: Sextet): int {
    ToInt32(acc * 64 + x)
  }

  function ByteAt(acc: int, bits: nat): Byte
    requires bits in {0, 2, 4, 6}
  {
    (if bits == 0 then acc else if bits == 2 then acc / 4 else if bits == 4 then acc / 16 else acc / 64) % 256
  }

  /** The bytes still to come, from this accumulator and bit count. */
  function Pour(acc: int, bits: nat, s: seq<Sextet>): seq<Byte>
    requires bits in {0, 2, 4, 6}
    decreases |s|
  {
    if s == [] then []
    else if bits + 6 >= 8 then [ByteAt(Shifted(acc, s[0]), bits - 2)] + Pour(Shifted(acc, s[0]), bits - 2, s[1..])
    else Pour(Shifted(acc, s[0]), bits + 6, s[1..])
  }

  lemma PourStep(acc: int, bits: nat, x: Sextet, left: seq<Sextet>)
    requires bits in {0, 2, 4, 6}
    ensures Pour(acc, bits, [x] + left) ==
      if bits == 0 then Pour(Shifted(acc, x), 6, left)
      else [ByteAt(Shifted(acc, x), bits - 2)] + Pour(Shifted(acc, x), bits - 2, left)
  {
    hide ByteAt, Shifted;
    assert ([x] + left)[1..] == left;
  }

  /** What is written so far, then what the rest of the text will pour. */
  predicate OnTrack(written: seq<Byte>, acc: int, bits: nat, rest: string, clean: string)
    requires bits in {0, 2, 4, 6}
  {
    && (Indexes(rest).None? <==> Indexes(clean).None?)
    && (Indexes(rest).Some? ==> written + Pour(acc, bits, Indexes(rest).value) == Pour(0, 0, Indexes(clean).value))
  }

  lemma TrackStep(written: seq<Byte>, acc: int, bits: nat, rest: string, clean: string)
    requires bits in {0, 2, 4, 6} && rest != "" && IndexOf(rest[0]).Some? && OnTrack(written, acc, bits, rest, clean)
    ensures var next := Shifted(acc, IndexOf(rest[0]).value);
            if bits == 0 then OnTrack(written, next, 6, rest[1..], clean)
            else OnTrack(written + [ByteAt(next, bits - 2)], next, bits - 2, rest[1..], clean)
  {
    var x := IndexOf(rest[0]).value;
    if Indexes(rest[1..]).Some? {
      var left := Indexes(rest[1..]).value;
      assert Indexes(rest) == Some([x] + left);
      hide IndexOf, Indexes, Pour, ByteAt, Shifted;
      PourStep(acc, bits, x, left);
      if bits != 0 {
        var b := ByteAt(Shifted(acc, x), bits - 2);
        assert (written + [b]) + Pour(Shifted(acc, x), bits - 2, left) == written + ([b] + Pour(Shifted(acc, x), bits - 2, left));
      }
    }
  }

  /** The decoder's loop: it writes in bounds, fills its buffer exactly, and wrapping loses nothing. */
  method Base64UrlToBytes(text: string) returns (r: Option<seq<Byte>>)
    ensures r == Decode(text)
    ensures r.Some? ==> |r.value| == |StripPadding(text)| * 3 / 4
  {
    var clean := StripPadding(text);
    var out := new Byte[|clean| * 3 / 4](i => 0);
    var bits := 0;
    var acc := 0;
    var pos := 0;
    var i := 0;
    assert clean[0..] == clean && out[..0] == [];
    assert OnTrack([], 0, 0, clean, clean);
    while i < |clean|
      invariant 0 <= i <= |clean|
      invariant bits in {0, 2, 4, 6} && 6 * i == 8 * pos + bits && pos <= out.Length
      invariant OnTrack(out[..pos], acc, bits, clean[i..], clean)
    {
      var index := IndexOf(clean[i]);
      if index.None? {
        assert Indexes(clean[i..]).None?;
        return None;
      }
      assert clean[i..][0] == clean[i] && clean[i..][1..] == clean[i + 1..];
      TrackStep(out[..pos], acc, bits, clean[i..], clean);
      hide OnTrack, Shifted, ByteAt, IndexOf, Indexes;
      acc := Shifted(acc, index.value);
      bits := bits + 6;
      if bits >= 8 {
        bits := bits - 8;
        ghost var written := out[..pos];
        out[pos] := ByteAt(acc, bits);
        pos := pos + 1;
        assert out[..pos] == written + [ByteAt(acc, bits)];
      }
      i := i + 1;
    }
    assert clean[i..] == "" && Indexes("") == Some([]) && Pour(acc, bits, []) == [];
    r := Some(out[..pos]);
    PourIsOctets(0, Indexes(clean).value);
    assert out[..pos] + [] == out[..pos];
  }

  /** How often the accumulator wraps. Bits above the unwritten ones are never read again, so it does not matter. */
  function Turns(n: int): (k: int)
    ensures ToInt32(n) == n + k * 0x1_0000_0000
  {
    (ToInt32(n) - n) / 0x1_0000_0000
  }

  lemma Divides(n: int, d: int, q: int, r: int)
    requires d > 0 && n == q * d + r && 0 <= r < d
    ensures n / d == q && n % d == r
  {
    var e := n / d - q;
    assert n == n / d * d + n % d;
    assert e * d == r - n % d;
    Multiples(e, d);
  }

  lemma Multiples(e: int, d: int)
    requires d > 0
    ensures e >= 1 ==> e * d >= d
    ensures e <= -1 ==> e * d <= -d
  {
  }

  lemma FirstByte(acc: int, x: Sextet, y: Sextet)
    ensures ByteAt(Shifted(Shifted(acc, x), y), 4) == Byte1(x, y)
  {
    var j, k := Turns(acc * 64 + x), Turns(Shifted(acc, x) * 64 + y);
    var high := acc + j * 0x400_0000 + k * 0x10_0000;
    var n := Shifted(Shifted(acc, x), y);
    assert n == 4096 * high + x * 64 + y;
    Divides(n, 16, 256 * high + Byte1(x, y), y % 16);
    Divides(n / 16, 256, high, Byte1(x, y));
  }

  lemma SecondByte(acc: int, x: Sextet, y: Sextet)
    ensures ByteAt(Shifted(Shifted(acc, x), y), 2) == Byte2(x, y)
  {
    var j, k := Turns(acc * 64 + x), Turns(Shifted(acc, x) * 64 + y);
    var high := acc + j * 0x400_0000 + k * 0x10_0000;
    var n := Shifted(Shifted(acc, x), y);
    assert n == 4096 * high + x * 64 + y;
    Divides(n, 4, 256 * (4 * high + x / 16) + Byte2(x, y), y % 4);
    Divides(n / 4, 256, 4 * high + x / 16, Byte2(x, y));
  }

  lemma ThirdByte(acc: int, x: Sextet, y: Sextet)
    ensures ByteAt(Shifted(Shifted(acc, x), y), 0) == Byte3(x, y)
  {
    var j, k := Turns(acc * 64 + x), Turns(Shifted(acc, x) * 64 + y);
    var high := acc + j * 0x400_0000 + k * 0x10_0000;
    var n := Shifted(Shifted(acc, x), y);
    assert n == 4096 * high + x * 64 + y;
    Divides(n, 256, 16 * high + x / 4, Byte3(x, y));
  }

  /** Whatever the accumulator held, from a byte boundary the decoder produces what the text spells. */
  lemma {:induction false} PourIsOctets(acc: int, s: seq<Sextet>)
    ensures Pour(acc, 0, s) == Octets(s)
    ensures |Octets(s)| == |s| * 3 / 4
    decreases |s|
  {
    hide ByteAt, Shifted, Byte1, Byte2, Byte3;
    if |s| >= 2 {
      var a1 := Shifted(acc, s[0]);
      var a2 := Shifted(a1, s[1]);
      FirstByte(acc, s[0], s[1]);
      assert Pour(acc, 0, s) == Pour(a1, 6, s[1..]);
      assert Pour(a1, 6, s[1..]) == [ByteAt(a2, 4)] + Pour(a2, 4, s[1..][1..]);
      assert s[1..][1..] == s[2..];
      if |s| >= 3 {
        var a3 := Shifted(a2, s[2]);
        SecondByte(a1, s[1], s[2]);
        assert Pour(a2, 4, s[2..]) == [ByteAt(a3, 2)] + Pour(a3, 2, s[2..][1..]);
        assert s[2..][1..] == s[3..];
        if |s| >= 4 {
          var a4 := Shifted(a3, s[3]);
          ThirdByte(a2, s[2], s[3]);
          assert Pour(a3, 2, s[3..]) == [ByteAt(a4, 0)] + Pour(a4, 0, s[3..][1..]);
          assert s[3..][1..] == s[4..];
          PourIsOctets(a4, s[4..]);
        }
      }
    } else if |s| == 1 {
      assert Pour(acc, 0, s) == Pour(Shifted(acc, s[0]), 6, s[1..]);
    }
  }

  lemma {:induction false} OctetsInvertSextets(bytes: seq<Byte>)
    ensures Octets(Sextets(bytes)) == bytes
  {
    if |bytes| >= 3 {
      OctetsInvertSextets(bytes[3..]);
      var s := Sextets(bytes);
      assert s[4..] == Sextets(bytes[3..]);
      assert bytes == [bytes[0], bytes[1], bytes[2]] + bytes[3..];
    }
  }

  lemma {:induction false} IndexesInvertSpell(s: seq<Sextet>)
    ensures Indexes(Spell(s)) == Some(s)
  {
    if s != [] {
      IndexesInvertSpell(s[1..]);
      assert Spell(s)[1..] == Spell(s[1..]);
      assert IndexOf(CharOf(s[0])) == Some(s[0]);
      assert [s[0]] + s[1..] == s;
    }
  }

  lemma SpellHasNoPadding(s: seq<Sextet>)
    ensures StripPadding(Spell(s)) == Spell(s)
  {
  }

  /** Main result: decoding what was encoded returns the same bytes, for every byte string. */
  lemma DecodeInvertsEncode(bytes: seq<Byte>)
    ensures Decode(Encode(bytes)) == Some(bytes)
  {
    SpellHasNoPadding(Sextets(bytes));
    IndexesInvertSpell(Sextets(bytes));
    OctetsInvertSextets(bytes);
  }

  /** No character is left dangling and no dropped bit is set. */
  predicate Canonical(s: seq<Sextet>) {
    && |s| % 4 != 1
    && (|s| % 4 == 2 ==> s[|s| - 1] % 16 == 0)
    && (|s| % 4 == 3 ==> s[|s| - 1] % 4 == 0)
  }

  lemma GroupReadsBack(w: Sextet, x: Sextet, y: Sextet, z: Sextet)
    ensures Sextet1(Byte1(w, x)) == w && Sextet2(Byte1(w, x), Byte2(x, y)) == x
    ensures Sextet3(Byte2(x, y), Byte3(y, z)) == y && Sextet4(Byte3(y, z)) == z
    ensures Sextet2(Byte1(w, x), 0) == x <==> x % 16 == 0
    ensures Sextet3(Byte2(x, y), 0) == y <==> y % 4 == 0
  {
  }

  lemma {:induction false} SextetsInvertOctets(s: seq<Sextet>)
    ensures Sextets(Octets(s)) == s <==> Canonical(s)
  {
    hide Sextet1, Sextet2, Sextet3, Sextet4, Byte1, Byte2, Byte3;
    if |s| >= 4 {
      var o := Octets(s);
      GroupReadsBack(s[0], s[1], s[2], s[3]);
      SextetsInvertOctets(s[4..]);
      assert o[3..] == Octets(s[4..]);
      assert Sextets(o) == s[..4] + Sextets(o[3..]);
      assert Sextets(o)[4..] == Sextets(o[3..]);
      assert s == s[..4] + s[4..];
    } else if |s| == 3 {
      GroupReadsBack(s[0], s[1], s[2], 0);
    } else if |s| == 2 {
      GroupReadsBack(s[0], s[1], 0, 0);
    }
  }

  lemma {:induction false} SpellInvertsIndexes(text: string)
    requires Indexes(text).Some?
    ensures Spell(Indexes(text).value) == text
  {
    if text != "" {
      SpellInvertsIndexes(text[1..]);
      var s := Indexes(text).value;
      assert s[1..] == Indexes(text[1..]).value;
      assert forall i | 0 < i < |text| :: Spell(s)[i] == Spell(s[1..])[i - 1] == text[i];
      assert CharOf(IndexOf(text[0]).value) == text[0];
    }
  }

  /** The other way round holds exactly for canonical text: the decoder takes more than the encoder
    * writes, so two texts can carry the same bytes. */
  lemma EncodeInvertsDecodeIffCanonical(text: string)
    requires Decode(text).Some?
    ensures Encode(Decode(text).value) == text <==> StripPadding(text) == text && Canonical(Indexes(text).value)
  {
    var clean := StripPadding(text);
    var s := Indexes(clean).value;
    SextetsInvertOctets(s);
    SpellInvertsIndexes(clean);
    if Encode(Octets(s)) == text {
      SpellHasNoPadding(Sextets(Octets(s)));
      IndexesInvertSpell(Sextets(Octets(s)));
    }
  }
}
