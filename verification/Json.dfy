/** JSON as `JSON.stringify` prints it and `JSON.parse` reads it, over UTF-16 code units.

  A number is an exact decimal in normal form. Parsing undoes printing for every value, what is printed
  holds no line break, and no proper prefix of a printed array or object parses: the three facts a
  line-oriented log of JSON values rests on.
 */
module Json {
  import opened Options

  type Unit = x: int | 0 <= x < 0x1_0000
  type Text = seq<Unit>

  datatype Json =
    | Null
    | Bool(b: bool)
    | Num(mantissa: int, scale: nat)
    | Str(text: Text)
    | Arr(items: Items)
    | Obj(members: Members)

  datatype Items = NoItems | Item(head: Json, tail: Items)
  datatype Members = NoMembers | Member(key: Text, value: Json, rest: Members)

  // ---------------------------------------------------------------------------
  // Numbers: mantissa / 10^scale
  // ---------------------------------------------------------------------------

  function Pow10(n: nat): (p: nat)
    ensures p > 0
  {
    if n == 0 then 1 else 10 * Pow10(n - 1)
  }

  /** No trailing zero after the point. */
  predicate Normal(mantissa: int, scale: nat) {
    scale > 0 ==> mantissa % 10 != 0
  }

  function Normalized(mantissa: int, scale: nat): (r: (int, nat))
    ensures Normal(r.0, r.1)
    decreases scale
  {
    if scale > 0 && mantissa % 10 == 0 then Normalized(mantissa / 10, scale - 1) else (mantissa, scale)
  }

  function Value(mantissa: int, scale: nat): real {
    mantissa as real / Pow10(scale) as real
  }

  lemma {:induction false} NormalizingKeepsValue(mantissa: int, scale: nat)
    ensures Value(Normalized(mantissa, scale).0, Normalized(mantissa, scale).1) == Value(mantissa, scale)
    decreases scale
  {
    if scale > 0 && mantissa % 10 == 0 {
      NormalizingKeepsValue(mantissa / 10, scale - 1);
      TenthOfTen(mantissa / 10, Pow10(scale - 1));
    }
  }

  lemma TenthOfTen(m: int, p: nat)
    requires p > 0
    ensures m as real / p as real == (10 * m) as real / (10 * p) as real
  {
    var q := m as real / p as real;
    assert q * p as real == m as real;
    assert q * (10 * p) as real == (10 * m) as real;
  }

  // ---------------------------------------------------------------------------
  // Printing
  // ---------------------------------------------------------------------------

  const QUOTE := 0x22
  const BACKSLASH := 0x5C
  const COMMA := 0x2C
  const COLON := 0x3A
  const MINUS := 0x2D
  const PLUS := 0x2B
  const POINT := 0x2E
  const ZERO := 0x30
  const OPEN_ARRAY := 0x5B
  const CLOSE_ARRAY := 0x5D
  const OPEN_OBJECT := 0x7B
  const CLOSE_OBJECT := 0x7D
  const LETTER_U := 0x75

  function Digits(n: nat): Text {
    if n < 10 then [ZERO + n] else Digits(n / 10) + [ZERO + n % 10]
  }

  function FixedDigits(n: nat, width: nat): (r: Text)
    ensures |r| == width
  {
    if width == 0 then [] else FixedDigits(n / 10, width - 1) + [ZERO + n % 10]
  }

  function Magnitude(n: int): nat {
    if n < 0 then -n else n
  }

  function Signed(negative: bool, n: int): int {
    if negative then -n else n
  }

  function Whole(m: nat, p: nat): nat
    requires p > 0
  {
    m / p
  }

  function Part(m: nat, p: nat): nat
    requires p > 0
  {
    m % p
  }

  function PrintNumber(mantissa: int, scale: nat): Text {
    var m := Magnitude(mantissa);
    (if mantissa < 0 then [MINUS] else []) + (Digits(Whole(m, Pow10(scale)))
      + (if scale == 0 then [] else [POINT] + FixedDigits(Part(m, Pow10(scale)), scale)))
  }

  predicate High(u: Unit) { 0xD800 <= u < 0xDC00 }
  predicate Low(u: Unit) { 0xDC00 <= u < 0xE000 }

  /** Lower-case hexadecimal. */
  function HexDigit(n: nat): Unit
    requires n < 16
  {
    if n < 10 then ZERO + n else 0x61 + n - 10
  }

  function Hex4(u: Unit): Text {
    [BACKSLASH, LETTER_U, HexDigit(u / 0x1000), HexDigit(u / 0x100 % 16), HexDigit(u / 0x10 % 16), HexDigit(u % 16)]
  }

  function EscapeLetter(u: Unit): Option<Unit> {
    if u == 0x08 then Some(0x62)
    else if u == 0x09 then Some(0x74)
    else if u == 0x0A then Some(0x6E)
    else if u == 0x0C then Some(0x66)
    else if u == 0x0D then Some(0x72)
    else if u == QUOTE || u == BACKSLASH then Some(u)
    else None
  }

  function PrintUnit(u: Unit): Text {
    if EscapeLetter(u).Some? then [BACKSLASH, EscapeLetter(u).value]
    else if u < 0x20 || High(u) || Low(u) then Hex4(u)
    else [u]
  }

  /** The body and closing quote. A surrogate pair is copied; a surrogate alone is escaped. */
  function PrintBody(s: Text): Text {
    if s == [] then [QUOTE]
    else if |s| >= 2 && High(s[0]) && Low(s[1]) then [s[0], s[1]] + PrintBody(s[2..])
    else PrintUnit(s[0]) + PrintBody(s[1..])
  }

  function PrintString(s: Text): Text {
    [QUOTE] + PrintBody(s)
  }

  const TRUE: Text := [0x74, 0x72, 0x75, 0x65]
  const FALSE: Text := [0x66, 0x61, 0x6C, 0x73, 0x65]
  const NULL: Text := [0x6E, 0x75, 0x6C, 0x6C]

  function Print(j: Json): Text {
    match j
    case Null => NULL
    case Bool(b) => if b then TRUE else FALSE
    case Num(m, s) => PrintNumber(m, s)
    case Str(s) => PrintString(s)
    case Arr(items) => [OPEN_ARRAY] + (if items.NoItems? then [CLOSE_ARRAY] else PrintItems(items))
    case Obj(members) => [OPEN_OBJECT] + (if members.NoMembers? then [CLOSE_OBJECT] else PrintMembers(members))
  }

  /** The items and the closing bracket. */
  function PrintItems(items: Items): Text
    requires items.Item?
  {
    Print(items.head) + (if items.tail.NoItems? then [CLOSE_ARRAY] else [COMMA] + PrintItems(items.tail))
  }

  function PrintMembers(members: Members): Text
    requires members.Member?
  {
    PrintString(members.key) + ([COLON] + (Print(members.value)
      + (if members.rest.NoMembers? then [CLOSE_OBJECT] else [COMMA] + PrintMembers(members.rest))))
  }

  // ---------------------------------------------------------------------------
  // Parsing. Every parser returns what it read and what is left.
  // ---------------------------------------------------------------------------

  predicate IsSpace(u: Unit) { u == 0x20 || u == 0x09 || u == 0x0A || u == 0x0D }
  predicate IsDigit(u: Unit) { ZERO <= u <= 0x39 }

  function SkipSpace(s: Text): (r: Text)
    ensures |r| <= |s|
    ensures r != [] ==> !IsSpace(r[0])
  {
    if s != [] && IsSpace(s[0]) then SkipSpace(s[1..]) else s
  }

  function HexValue(u: Unit): Option<nat> {
    if IsDigit(u) then Some(u - ZERO)
    else if 0x61 <= u <= 0x66 then Some(u - 0x61 + 10)
    else if 0x41 <= u <= 0x46 then Some(u - 0x41 + 10)
    else None
  }

  function ReadHex4(s: Text): Option<Unit>
    requires |s| >= 4
  {
    match (HexValue(s[0]), HexValue(s[1]), HexValue(s[2]), HexValue(s[3]))
    case (Some(a), Some(b), Some(c), Some(d)) =>
      if a < 16 && b < 16 && c < 16 && d < 16 then Some(a * 0x1000 + b * 0x100 + c * 0x10 + d) else None
    case _ => None
  }

  function Unescaped(letter: Unit): Option<Unit> {
    if letter == QUOTE || letter == BACKSLASH || letter == 0x2F then Some(letter)
    else if letter == 0x62 then Some(0x08)
    else if letter == 0x66 then Some(0x0C)
    else if letter == 0x6E then Some(0x0A)
    else if letter == 0x72 then Some(0x0D)
    else if letter == 0x74 then Some(0x09)
    else None
  }

  /** One unit of a string's body, and how long it was written. */
  function ReadUnit(s: Text): (r: Option<(Unit, nat)>)
    requires s != [] && s[0] != QUOTE
    ensures r.Some? ==> 0 < r.value.1 <= |s|
  {
    if s[0] != BACKSLASH then (if s[0] < 0x20 then None else Some((s[0], 1)))
    else if |s| < 2 then None
    else if s[1] == LETTER_U then
      if |s| < 6 || ReadHex4(s[2..6]).None? then None else Some((ReadHex4(s[2..6]).value, 6))
    else
      match Unescaped(s[1])
      case None => None
      case Some(u) => Some((u, 2))
  }

  /** A string's body, up to and over its closing quote. */
  function ParseBody(s: Text): (r: Option<(Text, Text)>)
    ensures r.Some? ==> |r.value.1| < |s|
    decreases |s|
  {
    if s == [] then None
    else if s[0] == QUOTE then Some(([], s[1..]))
    else
      match ReadUnit(s)
      case None => None
      case Some((u, n)) =>
        match ParseBody(s[n..])
        case None => None
        case Some((us, left)) => Some(([u] + us, left))
  }

  /** A run of digits: its value, its length and what follows. */
  function ReadDigits(s: Text, value: nat, count: nat): (r: (nat, nat, Text))
    ensures |r.2| <= |s| && r.1 == count + |s| - |r.2|
    decreases |s|
  {
    if s != [] && IsDigit(s[0]) then ReadDigits(s[1..], value * 10 + s[0] - ZERO, count + 1) else (value, count, s)
  }

  /** The exponent, and what follows; no exponent is zero. */
  function ParseExponent(s: Text): (r: Option<(int, Text)>)
    ensures r.Some? ==> |r.value.1| <= |s|
  {
    if s == [] || (s[0] != 0x65 && s[0] != 0x45) then Some((0, s))
    else if |s| < 2 then None
    else
      var signed := s[1] == PLUS || s[1] == MINUS;
      var t := if signed then s[2..] else s[1..];
      var (value, count, left) := ReadDigits(t, 0, 0);
      if count == 0 then None else Some((Signed(s[1] == MINUS, value), left))
  }

  /** A decimal with an exponent, in normal form. */
  function Decimal(mantissa: int, count: nat, exponent: int): Json {
    if exponent >= count then Num(mantissa * Pow10(exponent - count), 0)
    else var n := Normalized(mantissa, count - exponent); Num(n.0, n.1)
  }

  /** From the digits of the whole part on. */
  function ParseFraction(negative: bool, whole: nat, s: Text): (r: Option<(Json, Text)>)
    ensures r.Some? ==> |r.value.1| <= |s|
  {
    var (value, count, left) := if s != [] && s[0] == POINT then ReadDigits(s[1..], whole, 0) else (whole, 0, s);
    if s != [] && s[0] == POINT && count == 0 then None
    else
      match ParseExponent(left)
      case None => None
      case Some((exponent, rest)) => Some((Decimal(Signed(negative, value), count, exponent), rest))
  }

  function ParseNumber(s: Text): (r: Option<(Json, Text)>)
    requires s != []
    ensures r.Some? ==> |r.value.1| < |s| && r.value.0.Num?
  {
    var negative := s[0] == MINUS;
    var t := if negative then s[1..] else s;
    if t == [] || !IsDigit(t[0]) then None
    else if t[0] == ZERO then ParseFraction(negative, 0, t[1..])
    else var (value, count, left) := ReadDigits(t, 0, 0); ParseFraction(negative, value, left)
  }

  function ParseLiteral(s: Text, word: Text, j: Json): (r: Option<(Json, Text)>)
    requires word != []
    ensures r.Some? ==> |r.value.1| < |s|
  {
    if word <= s then Some((j, s[|word|..])) else None
  }

  function ParseValue(s: Text): (r: Option<(Json, Text)>)
    ensures r.Some? ==> |r.value.1| < |s|
    decreases |s|, 1
  {
    var t := SkipSpace(s);
    if t == [] then None
    else if t[0] == OPEN_ARRAY then
      var u := SkipSpace(t[1..]);
      if u != [] && u[0] == CLOSE_ARRAY then Some((Arr(NoItems), u[1..]))
      else
        match ParseItems(t[1..])
        case None => None
        case Some((items, left)) => Some((Arr(items), left))
    else if t[0] == OPEN_OBJECT then
      var u := SkipSpace(t[1..]);
      if u != [] && u[0] == CLOSE_OBJECT then Some((Obj(NoMembers), u[1..]))
      else
        match ParseMembers(t[1..])
        case None => None
        case Some((members, left)) => Some((Obj(members), left))
    else if t[0] == QUOTE then
      match ParseBody(t[1..])
      case None => None
      case Some((text, left)) => Some((Str(text), left))
    else if t[0] == TRUE[0] then ParseLiteral(t, TRUE, Bool(true))
    else if t[0] == FALSE[0] then ParseLiteral(t, FALSE, Bool(false))
    else if t[0] == NULL[0] then ParseLiteral(t, NULL, Null)
    else ParseNumber(t)
  }

  function ParseItems(s: Text): (r: Option<(Items, Text)>)
    ensures r.Some? ==> |r.value.1| < |s| && r.value.0.Item?
    decreases |s|, 2
  {
    match ParseValue(s)
    case None => None
    case Some((head, after)) =>
      var t := SkipSpace(after);
      if t == [] then None
      else if t[0] == CLOSE_ARRAY then Some((Item(head, NoItems), t[1..]))
      else if t[0] == COMMA then
        match ParseItems(t[1..])
        case None => None
        case Some((tail, left)) => Some((Item(head, tail), left))
      else None
  }

  function ParseKey(s: Text): (r: Option<(Text, Text)>)
    ensures r.Some? ==> |r.value.1| < |s|
  {
    var t := SkipSpace(s);
    if t == [] || t[0] != QUOTE then None
    else
      match ParseBody(t[1..])
      case None => None
      case Some((key, after)) =>
        var u := SkipSpace(after);
        if u == [] || u[0] != COLON then None else Some((key, u[1..]))
  }

  function ParseMembers(s: Text): (r: Option<(Members, Text)>)
    ensures r.Some? ==> |r.value.1| < |s| && r.value.0.Member?
    decreases |s|, 2
  {
    match ParseKey(s)
    case None => None
    case Some((key, afterKey)) =>
      match ParseValue(afterKey)
      case None => None
      case Some((value, after)) =>
        var t := SkipSpace(after);
        if t == [] then None
        else if t[0] == CLOSE_OBJECT then Some((Member(key, value, NoMembers), t[1..]))
        else if t[0] == COMMA then
          match ParseMembers(t[1..])
          case None => None
          case Some((rest, left)) => Some((Member(key, value, rest), left))
        else None
  }

  function Parse(s: Text): Option<Json> {
    match ParseValue(s)
    case None => None
    case Some((j, left)) => if SkipSpace(left) == [] then Some(j) else None
  }
}
