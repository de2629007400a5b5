/** Parsing undoes printing; printed values are one line; no proper prefix of a printed array or object parses. */
module JsonProofs {
  import opened Options
  import opened Json

  // ---------------------------------------------------------------------------
  // Numbers
  // ---------------------------------------------------------------------------

  lemma {:induction false} ReadsDigits(n: nat, s: Text)
    ensures ReadDigits(Digits(n) + s, 0, 0) == ReadDigits(s, n, |Digits(n)|)
  {
    if n < 10 {
      assert (Digits(n) + s)[1..] == s;
    } else {
      var last := [ZERO + n % 10];
      ReadsDigits(n / 10, last + s);
      assert Digits(n) + s == Digits(n / 10) + (last + s);
      assert (last + s)[1..] == s;
    }
  }

  lemma ShiftInDigit(v: nat, p: nat, n: nat)
    ensures (v * p + n / 10) * 10 + n % 10 == v * (10 * p) + n
  {
  }

  lemma {:induction false} ReadsFixedDigits(n: nat, width: nat, s: Text, v: nat, k: nat)
    requires n < Pow10(width)
    ensures ReadDigits(FixedDigits(n, width) + s, v, k) == ReadDigits(s, v * Pow10(width) + n, k + width)
    decreases width
  {
    if width == 0 {
      assert FixedDigits(n, width) + s == s;
    } else {
      var last := [ZERO + n % 10];
      ReadsFixedDigits(n / 10, width - 1, last + s, v, k);
      assert FixedDigits(n, width) + s == FixedDigits(n / 10, width - 1) + (last + s);
      assert (last + s)[1..] == s;
      ShiftInDigit(v, Pow10(width - 1), n);
    }
  }

  lemma {:induction false} LeadingDigit(n: nat)
    ensures Digits(n) != [] && IsDigit(Digits(n)[0])
    ensures Digits(n)[0] == ZERO <==> n == 0
    ensures n == 0 ==> Digits(n) == [ZERO]
  {
    if n >= 10 { LeadingDigit(n / 10); }
  }

  /** What may not follow a number. */
  predicate EndsNumber(s: Text) {
    s == [] || !(IsDigit(s[0]) || s[0] == POINT || s[0] == 0x65 || s[0] == 0x45)
  }

  lemma WholeAndPart(m: nat, p: nat)
    requires p > 0
    ensures Whole(m, p) * p + Part(m, p) == m && Part(m, p) < p
    ensures p == 1 ==> Whole(m, p) == m
  {
  }

  lemma NormalStays(mantissa: int, scale: nat)
    requires Normal(mantissa, scale)
    ensures Decimal(mantissa, scale, 0) == Num(mantissa, scale)
  {
    assert Pow10(0) == 1;
  }

  lemma NumberStops(s: Text, value: nat, count: nat)
    requires EndsNumber(s)
    ensures ReadDigits(s, value, count) == (value, count, s) && ParseExponent(s) == Some((0, s))
  {
  }

  lemma PlainReadsBack(negative: bool, m: nat, s: Text)
    requires EndsNumber(s) && Normal(Signed(negative, m), 0)
    ensures ParseFraction(negative, m, s) == Some((Num(Signed(negative, m), 0), s))
  {
    assert s == [] || s[0] != POINT;
    NormalStays(Signed(negative, m), 0);
    NumberStops(s, m, 0);
    hide EndsNumber, ReadDigits, ParseExponent, Decimal, Normal, Signed;
  }

  lemma FixedReadsBack(m: nat, scale: nat, s: Text)
    requires EndsNumber(s)
    ensures ReadDigits(FixedDigits(Part(m, Pow10(scale)), scale) + s, Whole(m, Pow10(scale)), 0) == (m, scale, s)
  {
    hide Whole, Part, FixedDigits, Pow10, ReadDigits, EndsNumber, ParseExponent;
    WholeAndPart(m, Pow10(scale));
    ReadsFixedDigits(Part(m, Pow10(scale)), scale, s, Whole(m, Pow10(scale)), 0);
    NumberStops(s, m, scale);
  }

  lemma FractionReadsBack(negative: bool, m: nat, scale: nat, s: Text)
    requires EndsNumber(s) && Normal(Signed(negative, m), scale)
    ensures var tail := if scale == 0 then [] else [POINT] + FixedDigits(Part(m, Pow10(scale)), scale);
            ParseFraction(negative, Whole(m, Pow10(scale)), tail + s) == Some((Num(Signed(negative, m), scale), s))
  {
    if scale == 0 {
      assert Pow10(scale) == 1 && Whole(m, 1) == m;
      assert [] + s == s;
      PlainReadsBack(negative, m, s);
    } else {
      hide Whole, Part, FixedDigits, Pow10, ReadDigits, ParseExponent, Decimal, Normal, Signed, EndsNumber;
      var digits := FixedDigits(Part(m, Pow10(scale)), scale);
      NormalStays(Signed(negative, m), scale);
      FixedReadsBack(m, scale, s);
      NumberStops(s, m, scale);
      assert ([POINT] + digits + s)[1..] == digits + s;
    }
  }

  lemma UnsignedReadsBack(negative: bool, m: nat, scale: nat, s: Text)
    requires EndsNumber(s) && Normal(Signed(negative, m), scale)
    ensures var whole := Whole(m, Pow10(scale));
            var tail := (if scale == 0 then [] else [POINT] + FixedDigits(Part(m, Pow10(scale)), scale)) + s;
            var r := Some((Num(Signed(negative, m), scale), s));
            && ParseFraction(negative, whole, tail) == r
            && (whole > 0 ==> ReadDigits(Digits(whole) + tail, 0, 0).0 == whole && ReadDigits(Digits(whole) + tail, 0, 0).2 == tail)
  {
    var whole := Whole(m, Pow10(scale));
    var tail := (if scale == 0 then [] else [POINT] + FixedDigits(Part(m, Pow10(scale)), scale)) + s;
    hide Whole, Part, FixedDigits, Pow10, ParseFraction, Digits;
    FractionReadsBack(negative, m, scale, s);
    ReadsDigits(whole, tail);
  }

  lemma NumberStart(mantissa: int, scale: nat)
    ensures PrintNumber(mantissa, scale)[0] == MINUS || IsDigit(PrintNumber(mantissa, scale)[0])
  {
    LeadingDigit(Whole(Magnitude(mantissa), Pow10(scale)));
    hide Whole, Part, FixedDigits, Pow10, Digits;
  }

  /** The printed number, then `s`: a sign if there is one, digits, and what follows them. */
  lemma NumberLayout(mantissa: int, scale: nat, s: Text)
    ensures var m := Magnitude(mantissa);
            var tail := (if scale == 0 then [] else [POINT] + FixedDigits(Part(m, Pow10(scale)), scale)) + s;
            var body := Digits(Whole(m, Pow10(scale))) + tail;
            var all := PrintNumber(mantissa, scale) + s;
            all == (if mantissa < 0 then [MINUS] else []) + body && (if mantissa < 0 then all[0] == MINUS && all[1..] == body else all == body)
  {
    hide Whole, Part, FixedDigits, Pow10, Digits;
  }

  lemma NumberReadsBack(mantissa: int, scale: nat, s: Text)
    requires Normal(mantissa, scale) && EndsNumber(s)
    ensures ParseNumber(PrintNumber(mantissa, scale) + s) == Some((Num(mantissa, scale), s))
  {
    var m := Magnitude(mantissa);
    var negative := mantissa < 0;
    assert Signed(negative, m) == mantissa;
    NumberStart(mantissa, scale);
    NumberLayout(mantissa, scale, s);
    hide Whole, Part, FixedDigits, Pow10, ParseFraction, Digits, ReadDigits, Normal, Signed, PrintNumber;
    var whole := Whole(m, Pow10(scale));
    var tail := (if scale == 0 then [] else [POINT] + FixedDigits(Part(m, Pow10(scale)), scale)) + s;
    UnsignedReadsBack(negative, m, scale, s);
    LeadingDigit(whole);
    if whole == 0 { assert (Digits(whole) + tail)[1..] == tail; }
  }

  // ---------------------------------------------------------------------------
  // Strings
  // ---------------------------------------------------------------------------

  lemma HexReadsBack(n: nat)
    requires n < 16
    ensures HexValue(HexDigit(n)) == Some(n)
  {
  }

  lemma UnitReadsBack(u: Unit, s: Text)
    ensures (PrintUnit(u) + s)[0] != QUOTE
    ensures ReadUnit(PrintUnit(u) + s) == Some((u, |PrintUnit(u)|))
  {
    if EscapeLetter(u).None? && (u < 0x20 || High(u) || Low(u)) {
      HexReadsBack(u / 0x1000);
      HexReadsBack(u / 0x100 % 16);
      HexReadsBack(u / 0x10 % 16);
      HexReadsBack(u % 16);
      HexSum(u);
      hide HexDigit, HexValue;
      assert (Hex4(u) + s)[2..6] == Hex4(u)[2..6];
    }
  }

  lemma HexSum(u: Unit)
    ensures u == u / 0x1000 * 0x1000 + u / 0x100 % 16 * 0x100 + u / 0x10 % 16 * 0x10 + u % 16
  {
    var a := u / 0x10;
    var b := u / 0x100;
    assert u == a * 0x10 + u % 16;
    assert a == b * 0x10 + a % 16;
    assert b == u / 0x1000 * 0x10 + b % 16;
  }

  lemma BodyStep(s: Text, u: Unit, n: nat, us: Text, left: Text)
    requires s != [] && s[0] != QUOTE && ReadUnit(s) == Some((u, n)) && ParseBody(s[n..]) == Some((us, left))
    ensures ParseBody(s) == Some(([u] + us, left))
  {
    hide ReadUnit;
  }

  lemma BodyEnds(s: Text)
    ensures ParseBody(PrintBody([]) + s) == Some(([], s))
  {
    assert (PrintBody([]) + s)[1..] == s;
  }

  lemma BodyUnfolds(text: Text)
    requires text != []
    ensures PrintBody(text) ==
      if |text| >= 2 && High(text[0]) && Low(text[1]) then [text[0], text[1]] + PrintBody(text[2..]) else PrintUnit(text[0]) + PrintBody(text[1..])
  {
    hide PrintUnit;
  }

  lemma Regroup(a: Text, b: Text, c: Text)
    ensures a + b + c == a + (b + c)
  {
  }

  lemma {:induction false} BodyReadsBack(text: Text, s: Text)
    ensures ParseBody(PrintBody(text) + s) == Some((text, s))
    decreases |text|
  {
    hide PrintUnit, ReadUnit, ParseBody, PrintBody;
    if text == [] {
      BodyEnds(s);
    } else if |text| >= 2 && High(text[0]) && Low(text[1]) {
      BodyUnfolds(text);
      Regroup([text[0], text[1]], PrintBody(text[2..]), s);
      BodyReadsBack(text[2..], s);
      PairReadsBack(text[0], text[1], PrintBody(text[2..]) + s, text[2..], s);
      assert text == [text[0]] + ([text[1]] + text[2..]);
    } else {
      BodyUnfolds(text);
      Regroup(PrintUnit(text[0]), PrintBody(text[1..]), s);
      BodyReadsBack(text[1..], s);
      var rest := PrintBody(text[1..]) + s;
      UnitReadsBack(text[0], rest);
      assert (PrintUnit(text[0]) + rest)[|PrintUnit(text[0])|..] == rest;
      assert text == [text[0]] + text[1..];
      BodyStep(PrintUnit(text[0]) + rest, text[0], |PrintUnit(text[0])|, text[1..], s);
    }
  }

  /** A surrogate pair is read one half at a time. */
  lemma PairReadsBack(high: Unit, low: Unit, rest: Text, us: Text, left: Text)
    requires High(high) && Low(low) && ParseBody(rest) == Some((us, left))
    ensures ParseBody([high, low] + rest) == Some(([high] + ([low] + us), left))
  {
    hide ParseBody;
    RawUnit([low] + rest);
    assert ([low] + rest)[1..] == rest;
    BodyStep([low] + rest, low, 1, us, left);
    RawUnit([high, low] + rest);
    assert ([high, low] + rest)[1..] == [low] + rest;
    BodyStep([high, low] + rest, high, 1, [low] + us, left);
  }

  lemma RawUnit(s: Text)
    requires s != [] && s[0] >= 0x20 && s[0] != QUOTE && s[0] != BACKSLASH
    ensures ReadUnit(s) == Some((s[0], 1))
  {
  }

  // ---------------------------------------------------------------------------
  // Values
  // ---------------------------------------------------------------------------

  /** Every number is in normal form. */
  predicate Proper(j: Json) {
    match j
    case Num(m, s) => Normal(m, s)
    case Arr(items) => ProperItems(items)
    case Obj(members) => ProperMembers(members)
    case _ => true
  }

  predicate ProperItems(items: Items) {
    items.Item? ==> Proper(items.head) && ProperItems(items.tail)
  }

  predicate ProperMembers(members: Members) {
    members.Member? ==> Proper(members.value) && ProperMembers(members.rest)
  }

  /** A printed value begins with neither a space nor a closing bracket. */
  lemma FirstUnit(j: Json)
    requires Proper(j)
    ensures Print(j) != [] && !IsSpace(Print(j)[0]) && Print(j)[0] != CLOSE_ARRAY && Print(j)[0] != CLOSE_OBJECT
    ensures j.Arr? ==> Print(j)[0] == OPEN_ARRAY
    ensures j.Obj? ==> Print(j)[0] == OPEN_OBJECT
  {
    if j.Num? { NumberStart(j.mantissa, j.scale); }
    hide PrintNumber, PrintItems, PrintMembers, PrintBody;
  }

  lemma NothingToSkip(s: Text)
    ensures s == [] || !IsSpace(s[0]) ==> SkipSpace(s) == s
  {
  }

  lemma {:induction false} ReadsBack(j: Json, s: Text)
    requires Proper(j) && (j.Num? ==> EndsNumber(s))
    ensures ParseValue(Print(j) + s) == Some((j, s))
    decreases j, 1
  {
    hide PrintNumber, ParseNumber, PrintBody, ParseBody, SkipSpace, PrintItems, PrintMembers, ParseItems, ParseMembers;
    FirstUnit(j);
    var all := Print(j) + s;
    NothingToSkip(all);
    match j
    case Null => assert all[|NULL|..] == s;
    case Bool(b) => assert all[|TRUE|..] == s || all[|FALSE|..] == s;
    case Num(m, k) => NumberStart(m, k); NumberReadsBack(m, k, s);
    case Str(text) =>
      BodyReadsBack(text, s);
      assert all[1..] == PrintBody(text) + s;
    case Arr(items) => ArrayReadsBack(items, s);
    case Obj(members) => ObjectReadsBack(members, s);
  }

  lemma {:induction false} ArrayReadsBack(items: Items, s: Text)
    requires ProperItems(items)
    ensures ParseValue(Print(Arr(items)) + s) == Some((Arr(items), s))
    decreases items, 3
  {
    hide SkipSpace, ParseItems, ParseMembers, ParseBody, ParseNumber;
    var all := Print(Arr(items)) + s;
    NothingToSkip(all);
    NothingToSkip(all[1..]);
    if items.NoItems? {
      assert all[1..][1..] == s;
    } else {
      ItemsReadBack(items, s);
      FirstUnit(items.head);
      assert all[1..] == PrintItems(items) + s;
    }
  }

  lemma {:induction false} ItemsReadBack(items: Items, s: Text)
    requires ProperItems(items) && items.Item?
    ensures ParseItems(PrintItems(items) + s) == Some((items, s))
    ensures PrintItems(items)[0] == Print(items.head)[0] && !IsSpace(PrintItems(items)[0]) && PrintItems(items)[0] != CLOSE_ARRAY
    decreases items, 2
  {
    hide Print, ParseValue, SkipSpace;
    FirstUnit(items.head);
    var tail := (if items.tail.NoItems? then [CLOSE_ARRAY] else [COMMA] + PrintItems(items.tail)) + s;
    assert PrintItems(items) + s == Print(items.head) + tail;
    ReadsBack(items.head, tail);
    NothingToSkip(tail);
    if items.tail.NoItems? {
      assert tail[1..] == s;
    } else {
      ItemsReadBack(items.tail, s);
      assert tail[1..] == PrintItems(items.tail) + s;
    }
  }

  lemma {:induction false} ObjectReadsBack(members: Members, s: Text)
    requires ProperMembers(members)
    ensures ParseValue(Print(Obj(members)) + s) == Some((Obj(members), s))
    decreases members, 3
  {
    hide SkipSpace, ParseItems, ParseMembers, ParseBody, ParseNumber, PrintMembers;
    var all := Print(Obj(members)) + s;
    NothingToSkip(all);
    NothingToSkip(all[1..]);
    if members.NoMembers? {
      assert all[1..][1..] == s;
    } else {
      MembersReadBack(members, s);
      MembersLayout(members, s);
      assert all[1..] == PrintMembers(members) + s;
    }
  }

  lemma KeyReadsBack(key: Text, s: Text)
    ensures ParseKey(PrintString(key) + ([COLON] + s)) == Some((key, s))
  {
    var all := PrintString(key) + ([COLON] + s);
    NothingToSkip(all);
    BodyReadsBack(key, [COLON] + s);
    assert all[1..] == PrintBody(key) + ([COLON] + s);
    NothingToSkip([COLON] + s);
    assert ([COLON] + s)[1..] == s;
    hide PrintBody, ParseBody, SkipSpace;
  }

  function MembersTail(members: Members): Text
    requires members.Member?
  {
    if members.rest.NoMembers? then [CLOSE_OBJECT] else [COMMA] + PrintMembers(members.rest)
  }

  lemma TailLayout(members: Members, s: Text)
    requires members.Member?
    ensures var tail := MembersTail(members) + s;
            && tail != [] && tail[0] == (if members.rest.NoMembers? then CLOSE_OBJECT else COMMA) && EndsNumber(tail)
            && tail[1..] == if members.rest.NoMembers? then s else PrintMembers(members.rest) + s
  {
    hide PrintMembers;
  }

  lemma MembersLayout(members: Members, s: Text)
    requires members.Member?
    ensures PrintMembers(members) + s == PrintString(members.key) + ([COLON] + (Print(members.value) + (MembersTail(members) + s)))
    ensures PrintMembers(members)[0] == QUOTE
  {
    hide Print, PrintBody;
  }

  lemma OneMember(s: Text, key: Text, afterKey: Text, value: Json, after: Text)
    requires ParseKey(s) == Some((key, afterKey)) && ParseValue(afterKey) == Some((value, after))
    requires after != [] && SkipSpace(after) == after
    ensures after[0] == CLOSE_OBJECT ==> ParseMembers(s) == Some((Member(key, value, NoMembers), after[1..]))
    ensures after[0] == COMMA && ParseMembers(after[1..]).Some? ==>
      ParseMembers(s) == Some((Member(key, value, ParseMembers(after[1..]).value.0), ParseMembers(after[1..]).value.1))
  {
    hide ParseKey, ParseValue, SkipSpace;
  }

  lemma {:induction false} MembersReadBack(members: Members, s: Text)
    requires ProperMembers(members) && members.Member?
    ensures ParseMembers(PrintMembers(members) + s) == Some((members, s))
    decreases members, 2
  {
    var tail := MembersTail(members) + s;
    var valued := Print(members.value) + tail;
    MembersLayout(members, s);
    KeyReadsBack(members.key, valued);
    TailLayout(members, s);
    hide Print, ParseValue, PrintString, ParseKey, PrintMembers, ParseMembers, MembersTail;
    NothingToSkip(tail);
    hide SkipSpace, EndsNumber;
    ReadsBack(members.value, tail);
    OneMember(PrintMembers(members) + s, members.key, valued, members.value, tail);
    assert members == Member(members.key, members.value, members.rest);
    if members.rest.Member? {
      MembersReadBack(members.rest, s);
    }
  }

  /** Main result: `JSON.parse(JSON.stringify(j))` is `j`. */
  lemma ParseInvertsPrint(j: Json)
    requires Proper(j)
    ensures Parse(Print(j)) == Some(j)
  {
    ReadsBack(j, []);
    assert Print(j) + [] == Print(j);
    hide Print, ParseValue;
  }

  // ---------------------------------------------------------------------------
  // One line each
  // ---------------------------------------------------------------------------

  /** No control character, so no line break. */
  predicate OneLine(s: Text) {
    forall i | 0 <= i < |s| :: s[i] >= 0x20
  }

  lemma {:induction false} DigitsAreOneLine(n: nat)
    ensures OneLine(Digits(n))
  {
    if n >= 10 { DigitsAreOneLine(n / 10); }
  }

  lemma {:induction false} FixedDigitsAreOneLine(n: nat, width: nat)
    ensures OneLine(FixedDigits(n, width))
    decreases width
  {
    if width > 0 { FixedDigitsAreOneLine(n / 10, width - 1); }
  }

  lemma {:induction false} BodyIsOneLine(s: Text)
    ensures OneLine(PrintBody(s))
    decreases |s|
  {
    if s != [] {
      if |s| >= 2 && High(s[0]) && Low(s[1]) { BodyIsOneLine(s[2..]); } else { BodyIsOneLine(s[1..]); }
    }
  }

  lemma NumberIsOneLine(mantissa: int, scale: nat)
    ensures OneLine(PrintNumber(mantissa, scale))
  {
    DigitsAreOneLine(Whole(Magnitude(mantissa), Pow10(scale)));
    FixedDigitsAreOneLine(Part(Magnitude(mantissa), Pow10(scale)), scale);
    hide Digits, FixedDigits, Whole, Part, Pow10;
  }

  /** Main result: a printed value holds no line break, whatever its strings hold. */
  lemma {:induction false} PrintIsOneLine(j: Json)
    ensures OneLine(Print(j))
    decreases j, 1
  {
    match j
    case Num(m, s) => NumberIsOneLine(m, s); hide PrintNumber;
    case Str(s) => BodyIsOneLine(s); hide PrintBody;
    case Arr(items) => if items.Item? { ItemsAreOneLine(items); } hide PrintItems;
    case Obj(members) => if members.Member? { MembersAreOneLine(members); } hide PrintMembers;
    case _ =>
  }

  lemma {:induction false} ItemsAreOneLine(items: Items)
    requires items.Item?
    ensures OneLine(PrintItems(items))
    decreases items, 0
  {
    PrintIsOneLine(items.head);
    if items.tail.Item? { ItemsAreOneLine(items.tail); }
    hide Print;
  }

  lemma {:induction false} MembersAreOneLine(members: Members)
    requires members.Member?
    ensures OneLine(PrintMembers(members))
    decreases members, 0
  {
    PrintIsOneLine(members.value);
    BodyIsOneLine(members.key);
    if members.rest.Member? { MembersAreOneLine(members.rest); }
    hide Print, PrintBody;
  }

  // ---------------------------------------------------------------------------
  // Nothing shorter parses
  // ---------------------------------------------------------------------------

  lemma {:induction false} SkipSpaceStable(s: Text, t: Text)
    ensures SkipSpace(s) != [] ==> SkipSpace(s + t) == SkipSpace(s) + t
  {
    if s != [] {
      SkipSpaceStable(s[1..], t);
      assert (s + t)[1..] == s[1..] + t;
    }
  }

  lemma ReadUnitStable(s: Text, t: Text)
    requires s != [] && s[0] != QUOTE && ReadUnit(s).Some?
    ensures ReadUnit(s + t) == ReadUnit(s)
  {
    if |s| >= 6 { assert (s + t)[2..6] == s[2..6]; }
  }

  lemma {:induction false} BodyStable(s: Text, t: Text)
    requires ParseBody(s).Some?
    ensures ParseBody(s + t) == Some((ParseBody(s).value.0, ParseBody(s).value.1 + t))
    decreases |s|
  {
    hide ReadUnit;
    if s[0] == QUOTE {
      assert (s + t)[1..] == s[1..] + t;
    } else {
      var n := ReadUnit(s).value.1;
      ReadUnitStable(s, t);
      BodyStable(s[n..], t);
      assert (s + t)[n..] == s[n..] + t;
    }
  }

  lemma {:induction false} DigitsStable(s: Text, v: nat, k: nat, t: Text)
    requires ReadDigits(s, v, k).2 != []
    ensures ReadDigits(s + t, v, k) == (ReadDigits(s, v, k).0, ReadDigits(s, v, k).1, ReadDigits(s, v, k).2 + t)
    decreases |s|
  {
    if s != [] && IsDigit(s[0]) {
      DigitsStable(s[1..], v * 10 + s[0] - ZERO, k + 1, t);
      assert (s + t)[1..] == s[1..] + t;
    }
  }

  lemma ExponentStable(s: Text, t: Text)
    requires ParseExponent(s).Some? && ParseExponent(s).value.1 != []
    ensures ParseExponent(s + t) == Some((ParseExponent(s).value.0, ParseExponent(s).value.1 + t))
  {
    if s[0] == 0x65 || s[0] == 0x45 {
      var signed := s[1] == PLUS || s[1] == MINUS;
      var u := if signed then s[2..] else s[1..];
      DigitsStable(u, 0, 0, t);
      assert (s + t)[2..] == s[2..] + t && (s + t)[1..] == s[1..] + t;
    }
  }

  lemma FractionStable(negative: bool, whole: nat, s: Text, t: Text)
    requires ParseFraction(negative, whole, s).Some? && ParseFraction(negative, whole, s).value.1 != []
    ensures ParseFraction(negative, whole, s + t)
         == Some((ParseFraction(negative, whole, s).value.0, ParseFraction(negative, whole, s).value.1 + t))
  {
    hide Decimal;
    assert (s + t)[1..] == s[1..] + t by { assert s != []; }
    if s[0] == POINT {
      DigitsStable(s[1..], whole, 0, t);
      ExponentStable(ReadDigits(s[1..], whole, 0).2, t);
    } else {
      ExponentStable(s, t);
    }
    hide ParseExponent, ReadDigits;
  }

  lemma NumberStable(s: Text, t: Text)
    requires s != [] && ParseNumber(s).Some? && ParseNumber(s).value.1 != []
    ensures ParseNumber(s + t) == Some((ParseNumber(s).value.0, ParseNumber(s).value.1 + t))
  {
    hide ParseFraction;
    var negative := s[0] == MINUS;
    var u := if negative then s[1..] else s;
    assert (if negative then (s + t)[1..] else s + t) == u + t;
    assert (u + t)[1..] == u[1..] + t;
    if u[0] == ZERO {
      FractionStable(negative, 0, u[1..], t);
    } else {
      var r := ReadDigits(u, 0, 0);
      FractionStable(negative, r.0, r.2, t);
      DigitsStable(u, 0, 0, t);
    }
    hide ReadDigits;
  }

  lemma LiteralStable(s: Text, word: Text, j: Json, t: Text)
    requires word != [] && ParseLiteral(s, word, j).Some?
    ensures ParseLiteral(s, word, j).value.0 == j
    ensures ParseLiteral(s + t, word, j) == Some((j, ParseLiteral(s, word, j).value.1 + t))
  {
    assert (s + t)[|word|..] == s[|word|..] + t;
    assert (s + t)[..|word|] == s[..|word|];
  }

  /** Main result: a complete value is read the same whatever follows it, unless it is a number at the very end. */
  lemma {:induction false} ValueStable(s: Text, t: Text)
    requires ParseValue(s).Some? && (ParseValue(s).value.0.Num? ==> ParseValue(s).value.1 != [])
    ensures ParseValue(s + t) == Some((ParseValue(s).value.0, ParseValue(s).value.1 + t))
    decreases |s|, 1
  {
    hide ParseItems, ParseMembers, ParseNumber, ParseBody, ParseLiteral;
    var u := SkipSpace(s);
    SkipSpaceStable(s, t);
    assert (u + t)[1..] == u[1..] + t;
    hide SkipSpace;
    if u[0] == OPEN_ARRAY || u[0] == OPEN_OBJECT {
      ContainerStable(s, t);
    } else if u[0] == QUOTE {
      BodyStable(u[1..], t);
    } else if u[0] == TRUE[0] {
      LiteralStable(u, TRUE, Bool(true), t);
    } else if u[0] == FALSE[0] {
      LiteralStable(u, FALSE, Bool(false), t);
    } else if u[0] == NULL[0] {
      LiteralStable(u, NULL, Null, t);
    } else {
      NumberStable(u, t);
    }
  }

  lemma {:induction false} ContainerStable(s: Text, t: Text)
    requires ParseValue(s).Some? && SkipSpace(s)[0] in {OPEN_ARRAY, OPEN_OBJECT}
    ensures ParseValue(s + t) == Some((ParseValue(s).value.0, ParseValue(s).value.1 + t))
    decreases |s|, 0
  {
    hide ParseItems, ParseMembers, ParseNumber, ParseBody, ParseLiteral, SkipSpace;
    var u := SkipSpace(s);
    SkipSpaceStable(s, t);
    assert (u + t)[1..] == u[1..] + t;
    var v := SkipSpace(u[1..]);
    SkipSpaceStable(u[1..], t);
    assert v != [] by { InsideIsNotEmpty(u); }
    assert (v + t)[1..] == v[1..] + t;
    if u[0] == OPEN_ARRAY && v[0] != CLOSE_ARRAY { ItemsStable(u[1..], t); }
    if u[0] == OPEN_OBJECT && v[0] != CLOSE_OBJECT { MembersStable(u[1..], t); }
  }

  lemma InsideIsNotEmpty(u: Text)
    requires u != [] && ((u[0] == OPEN_ARRAY && ParseItems(u[1..]).Some?) || (u[0] == OPEN_OBJECT && ParseMembers(u[1..]).Some?)
      || SkipSpace(u[1..]) != [])
    ensures SkipSpace(u[1..]) != []
  {
    hide SkipSpace;
  }

  lemma {:induction false} ItemsStable(s: Text, t: Text)
    requires ParseItems(s).Some?
    ensures ParseItems(s + t) == Some((ParseItems(s).value.0, ParseItems(s).value.1 + t))
    decreases |s|, 2
  {
    hide ParseValue, SkipSpace;
    var after := ParseValue(s).value.1;
    var u := SkipSpace(after);
    assert after != [] by { NothingToSkip(after); }
    ValueStable(s, t);
    SkipSpaceStable(after, t);
    assert (u + t)[1..] == u[1..] + t;
    if u[0] == COMMA { ItemsStable(u[1..], t); }
  }

  lemma KeyStable(s: Text, t: Text)
    requires ParseKey(s).Some?
    ensures ParseKey(s + t) == Some((ParseKey(s).value.0, ParseKey(s).value.1 + t))
  {
    hide ParseBody, SkipSpace;
    var u := SkipSpace(s);
    SkipSpaceStable(s, t);
    assert (u + t)[1..] == u[1..] + t;
    BodyStable(u[1..], t);
    var after := ParseBody(u[1..]).value.1;
    var v := SkipSpace(after);
    SkipSpaceStable(after, t);
    assert (v + t)[1..] == v[1..] + t;
  }

  lemma {:induction false} MembersStable(s: Text, t: Text)
    requires ParseMembers(s).Some?
    ensures ParseMembers(s + t) == Some((ParseMembers(s).value.0, ParseMembers(s).value.1 + t))
    decreases |s|, 2
  {
    hide ParseValue, SkipSpace, ParseKey;
    KeyStable(s, t);
    var valued := ParseKey(s).value.1;
    var after := ParseValue(valued).value.1;
    var u := SkipSpace(after);
    assert after != [] by { NothingToSkip(after); }
    ValueStable(valued, t);
    SkipSpaceStable(after, t);
    assert (u + t)[1..] == u[1..] + t;
    if u[0] == COMMA { MembersStable(u[1..], t); }
  }

  /** Main result: no proper prefix of a printed array or object parses, so a line cut anywhere inside is
    * recognised as cut. */
  lemma NoProperPrefixParses(j: Json, p: Text)
    requires Proper(j) && (j.Arr? || j.Obj?) && p < Print(j)
    ensures Parse(p) == None
  {
    FirstUnit(j);
    ReadsBack(j, []);
    assert Print(j) + [] == Print(j);
    var rest := Print(j)[|p|..];
    assert p + rest == Print(j);
    if Parse(p).Some? {
      assert p != [];
      StartsContainer(p);
      hide ParseValue, Print;
      ValueStable(p, rest);
    }
  }

  lemma StartsContainer(p: Text)
    requires p != [] && p[0] in {OPEN_ARRAY, OPEN_OBJECT} && ParseValue(p).Some?
    ensures !ParseValue(p).value.0.Num?
  {
    NothingToSkip(p);
    hide ParseItems, ParseMembers, ParseNumber, ParseBody;
  }
}
