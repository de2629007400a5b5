/** Recordings as bytes on disk: a file cut inside a character still opens
  (packages/cast/src/format.ts, packages/cast/src/writer.ts; read back with `TextDecoder`).
 */
module CastBytes {
  import opened Options
  import opened Json
  import opened JsonProofs
  import opened CastFormat
  import CastWriter
  import Utf8

  // ---------------------------------------------------------------------------
  // What is printed has no surrogate alone
  // ---------------------------------------------------------------------------

  lemma {:induction false} DigitsAreAscii(n: nat)
    ensures Utf8.Ascii(Digits(n))
  {
    if n >= 10 { DigitsAreAscii(n / 10); }
  }

  lemma {:induction false} FixedDigitsAreAscii(n: nat, width: nat)
    ensures Utf8.Ascii(FixedDigits(n, width))
    decreases width
  {
    if width > 0 { FixedDigitsAreAscii(n / 10, width - 1); }
  }

  lemma NumberIsAscii(mantissa: int, scale: nat)
    ensures Utf8.Ascii(PrintNumber(mantissa, scale))
  {
    DigitsAreAscii(Whole(Magnitude(mantissa), Pow10(scale)));
    FixedDigitsAreAscii(Part(Magnitude(mantissa), Pow10(scale)), scale);
    hide Digits, FixedDigits, Whole, Part, Pow10;
  }

  lemma UnitIsPaired(u: Unit)
    ensures Utf8.Paired(PrintUnit(u))
  {
    if PrintUnit(u) == [u] {
      assert PrintUnit(u)[1..] == [];
    } else {
      Utf8.AsciiIsPaired(PrintUnit(u));
    }
  }

  lemma PairIsPaired(high: Unit, low: Unit)
    requires High(high) && Low(low)
    ensures Utf8.Paired([high, low])
  {
    assert [high, low][2..] == [];
  }

  lemma {:induction false} BodyIsPaired(s: Text)
    ensures Utf8.Paired(PrintBody(s))
    decreases |s|
  {
    if s == [] {
      Utf8.AsciiIsPaired([QUOTE]);
    } else if |s| >= 2 && High(s[0]) && Low(s[1]) {
      BodyIsPaired(s[2..]);
      PairIsPaired(s[0], s[1]);
      Utf8.PairedJoins([s[0], s[1]], PrintBody(s[2..]));
    } else {
      BodyIsPaired(s[1..]);
      UnitIsPaired(s[0]);
      Utf8.PairedJoins(PrintUnit(s[0]), PrintBody(s[1..]));
    }
  }

  lemma JoinsAscii(a: Text, b: Text)
    requires Utf8.Ascii(a) && Utf8.Paired(b)
    ensures Utf8.Paired(a + b)
  {
    Utf8.AsciiIsPaired(a);
    Utf8.PairedJoins(a, b);
  }

  /** Whatever its strings hold, a printed value has no surrogate alone, so its UTF-8 says all of it. */
  lemma {:induction false} PrintIsPaired(j: Json)
    ensures Utf8.Paired(Print(j))
    decreases j, 1
  {
    hide PrintNumber, PrintBody, PrintItems, PrintMembers, Utf8.Paired;
    match j
    case Null => Utf8.AsciiIsPaired(NULL);
    case Bool(b) => Utf8.AsciiIsPaired(if b then TRUE else FALSE);
    case Num(m, s) => NumberIsAscii(m, s); Utf8.AsciiIsPaired(PrintNumber(m, s));
    case Str(s) => BodyIsPaired(s); JoinsAscii([QUOTE], PrintBody(s));
    case Arr(items) =>
      if items.Item? {
        ItemsArePaired(items);
        JoinsAscii([OPEN_ARRAY], PrintItems(items));
      } else {
        Utf8.AsciiIsPaired([OPEN_ARRAY] + [CLOSE_ARRAY]);
      }
    case Obj(members) =>
      if members.Member? {
        MembersArePaired(members);
        JoinsAscii([OPEN_OBJECT], PrintMembers(members));
      } else {
        Utf8.AsciiIsPaired([OPEN_OBJECT] + [CLOSE_OBJECT]);
      }
  }

  lemma {:induction false} ItemsArePaired(items: Items)
    requires items.Item?
    ensures Utf8.Paired(PrintItems(items))
    decreases items, 0
  {
    hide Print, Utf8.Paired;
    PrintIsPaired(items.head);
    if items.tail.Item? {
      ItemsArePaired(items.tail);
      JoinsAscii([COMMA], PrintItems(items.tail));
    } else {
      Utf8.AsciiIsPaired([CLOSE_ARRAY]);
    }
    Utf8.PairedJoins(Print(items.head), if items.tail.NoItems? then [CLOSE_ARRAY] else [COMMA] + PrintItems(items.tail));
  }

  lemma {:induction false} MembersArePaired(members: Members)
    requires members.Member?
    ensures Utf8.Paired(PrintMembers(members))
    decreases members, 0
  {
    hide Print, PrintBody, Utf8.Paired;
    PrintIsPaired(members.value);
    var tail := if members.rest.NoMembers? then [CLOSE_OBJECT] else [COMMA] + PrintMembers(members.rest);
    if members.rest.Member? {
      MembersArePaired(members.rest);
      JoinsAscii([COMMA], PrintMembers(members.rest));
    } else {
      Utf8.AsciiIsPaired([CLOSE_OBJECT]);
    }
    Utf8.PairedJoins(Print(members.value), tail);
    JoinsAscii([COLON], Print(members.value) + tail);
    BodyIsPaired(members.key);
    JoinsAscii([QUOTE], PrintBody(members.key));
    Utf8.PairedJoins(PrintString(members.key), [COLON] + (Print(members.value) + tail));
  }

  lemma {:induction false} BodyOfEventsIsPaired(events: seq<CastEvent>)
    ensures Utf8.Paired(Body(events))
  {
    if events != [] {
      PrintIsPaired(EventJson(events[0]));
      BodyOfEventsIsPaired(events[1..]);
      hide EncodeEvent, Utf8.Paired;
      JoinsAscii([NEWLINE], Body(events[1..]));
      Utf8.PairedJoins(EncodeEvent(events[0]), [NEWLINE] + Body(events[1..]));
      assert Body(events) == EncodeEvent(events[0]) + ([NEWLINE] + Body(events[1..]));
    }
  }

  /** The writer's byte count is the length of what the stream writes. */
  lemma {:induction false} BytesAreCounted(s: Text)
    ensures CastWriter.Utf8Length(s) == |Utf8.Encode(s)|
    decreases |s|
  {
    if s != [] { BytesAreCounted(s[Utf8.FirstWidth(s)..]); }
  }

  // ---------------------------------------------------------------------------
  // A line cut before a character and ended by a replacement character does not parse
  // ---------------------------------------------------------------------------

  const TORN: Text := [Utf8.REPLACEMENT]

  lemma RawThenNothing(u: Unit)
    requires u >= 0x80
    ensures ParseBody([u]) == None
  {
    assert [u][1..] == [];
  }

  lemma BodyFails(s: Text, u: Unit, n: nat)
    requires s != [] && s[0] != QUOTE && ReadUnit(s) == Some((u, n)) && ParseBody(s[n..]) == None
    ensures ParseBody(s) == None
  {
    hide ReadUnit;
  }

  /** A string's body, cut before a character that is not ASCII. */
  lemma {:induction false} TornBodyFails(text: Text, q: Text)
    requires q < PrintBody(text) && PrintBody(text)[|q|] >= 0x80
    ensures ParseBody(q + TORN) == None
    decreases |text|
  {
    hide ReadUnit, ParseBody, PrintUnit;
    if q == [] {
      assert q + TORN == TORN;
      RawThenNothing(Utf8.REPLACEMENT);
    } else if |text| >= 2 && High(text[0]) && Low(text[1]) {
      var rest := PrintBody(text[2..]);
      if |q| == 1 {
        assert q + TORN == [text[0]] + TORN;
        RawUnit([text[0]] + TORN);
        RawThenNothing(Utf8.REPLACEMENT);
        assert ([text[0]] + TORN)[1..] == TORN;
        BodyFails([text[0]] + TORN, text[0], 1);
      } else {
        var r := q[2..];
        assert q == [text[0], text[1]] + r && r < rest && rest[|r|] == PrintBody(text)[|q|];
        TornBodyFails(text[2..], r);
        var low := [text[1]] + (r + TORN);
        RawUnit(low);
        assert low[1..] == r + TORN;
        BodyFails(low, text[1], 1);
        assert q + TORN == [text[0]] + low;
        RawUnit([text[0]] + low);
        assert ([text[0]] + low)[1..] == low;
        BodyFails([text[0]] + low, text[0], 1);
      }
    } else if text != [] {
      var unit, rest := PrintUnit(text[0]), PrintBody(text[1..]);
      EscapesAreAscii(text[0]);
      assert PrintBody(text) == unit + rest;
      assert |q| >= |unit|;
      var r := q[|unit|..];
      assert q == unit + r && r < rest && rest[|r|] == PrintBody(text)[|q|];
      TornBodyFails(text[1..], r);
      UnitReadsBack(text[0], r + TORN);
      assert q + TORN == unit + (r + TORN);
      assert (unit + (r + TORN))[|unit|..] == r + TORN;
      BodyFails(unit + (r + TORN), text[0], |unit|);
    }
  }

  lemma EscapesAreAscii(u: Unit)
    ensures |PrintUnit(u)| >= 1 && (|PrintUnit(u)| > 1 ==> Utf8.Ascii(PrintUnit(u)))
  {
  }

  lemma ItemsFail(head: Json, rest: Text)
    requires Proper(head) && (head.Num? ==> EndsNumber([COMMA] + rest)) && ParseItems(rest) == None
    ensures ParseItems(Print(head) + ([COMMA] + rest)) == None
  {
    hide Print, ParseValue, Proper, EndsNumber;
    ReadsBack(head, [COMMA] + rest);
    NothingToSkip([COMMA] + rest);
    assert ([COMMA] + rest)[1..] == rest;
  }

  lemma StringFails(body: Text)
    requires ParseBody(body) == None
    ensures ParseItems([QUOTE] + body) == None
  {
    NothingToSkip([QUOTE] + body);
    assert ([QUOTE] + body)[1..] == body;
    hide ParseBody, ParseNumber, ParseMembers, ParseLiteral, SkipSpace;
  }

  lemma ArrayFails(inside: Text)
    requires inside != [] && !IsSpace(inside[0]) && inside[0] != CLOSE_ARRAY && ParseItems(inside) == None
    ensures Parse([OPEN_ARRAY] + inside) == None
  {
    NothingToSkip([OPEN_ARRAY] + inside);
    assert ([OPEN_ARRAY] + inside)[1..] == inside;
    NothingToSkip(inside);
    hide ParseItems, ParseMembers, ParseNumber, ParseBody, SkipSpace;
  }

  function NumberOf(e: CastEvent): Json {
    var n := Normalized(Micros(e.time), 6);
    Num(n.0, n.1)
  }

  function KindOf(e: CastEvent): Json {
    Str(if e.kind.Output? then LETTER_O else LETTER_R)
  }

  /** Everything before the body of the event's string. */
  function HeadOf(e: CastEvent): Text {
    [OPEN_ARRAY] + (Print(NumberOf(e)) + ([COMMA] + (Print(KindOf(e)) + ([COMMA] + [QUOTE]))))
  }

  lemma EventLayout(e: CastEvent)
    ensures EncodeEvent(e) == HeadOf(e) + (PrintBody(e.data) + [CLOSE_ARRAY])
  {
    hide PrintNumber, PrintBody;
    var last := Item(Str(e.data), NoItems);
    assert PrintItems(last) == [QUOTE] + PrintBody(e.data) + [CLOSE_ARRAY];
    var two := Item(KindOf(e), last);
    assert PrintItems(two) == Print(KindOf(e)) + ([COMMA] + PrintItems(last));
    var three := Item(NumberOf(e), two);
    assert PrintItems(three) == Print(NumberOf(e)) + ([COMMA] + PrintItems(two));
    assert EventJson(e) == Arr(three);
    assert Print(Arr(three)) == [OPEN_ARRAY] + PrintItems(three);
    hide Print, PrintItems;
    var tail := PrintBody(e.data) + [CLOSE_ARRAY];
    assert [QUOTE] + PrintBody(e.data) + [CLOSE_ARRAY] == [QUOTE] + tail;
    assert HeadOf(e) + tail
        == [OPEN_ARRAY] + (Print(NumberOf(e)) + ([COMMA] + (Print(KindOf(e)) + ([COMMA] + ([QUOTE] + tail)))));
  }

  lemma HeadIsAscii(e: CastEvent)
    ensures Utf8.Ascii(HeadOf(e))
  {
    NumberIsAscii(NumberOf(e).mantissa, NumberOf(e).scale);
    assert Print(KindOf(e)) == [QUOTE] + PrintBody(KindOf(e).text);
    KindIsAscii(e);
    hide PrintNumber, PrintBody;
  }

  lemma KindIsAscii(e: CastEvent)
    ensures Utf8.Ascii(PrintBody(KindOf(e).text))
  {
    var kind := KindOf(e).text;
    assert |kind| == 1 && kind[1..] == [];
    assert PrintBody(kind) == PrintUnit(kind[0]) + [QUOTE];
  }

  /** An event line, cut before a character that is not ASCII. */
  lemma TornEventFails(e: CastEvent, p: Text)
    requires p < EncodeEvent(e) && EncodeEvent(e)[|p|] >= 0x80
    ensures Parse(p + TORN) == None
  {
    hide Parse, ParseItems, ParseBody, Print, PrintBody, EncodeEvent, Utf8.Ascii, HeadOf, NumberOf, KindOf, Proper;
    EventLayout(e);
    TornInBody(e, p);
    var q := p[|HeadOf(e)|..];
    TornBodyFails(e.data, q);
    StringFails(q + TORN);
    TornLine(e, p, q);
  }

  lemma TornInBody(e: CastEvent, p: Text)
    requires p < EncodeEvent(e) && EncodeEvent(e)[|p|] >= 0x80
    requires EncodeEvent(e) == HeadOf(e) + (PrintBody(e.data) + [CLOSE_ARRAY])
    ensures |HeadOf(e)| <= |p| && p == HeadOf(e) + p[|HeadOf(e)|..]
    ensures p[|HeadOf(e)|..] < PrintBody(e.data) && PrintBody(e.data)[|p| - |HeadOf(e)|] >= 0x80
  {
    HeadIsAscii(e);
    hide EncodeEvent, HeadOf, PrintBody;
    var line, head, body := EncodeEvent(e), HeadOf(e), PrintBody(e.data);
    assert forall i | 0 <= i < |head| :: line[i] == head[i];
    var k := |p| - |head|;
    assert line[|p|] == (body + [CLOSE_ARRAY])[k];
    assert p[|head|..] == (body + [CLOSE_ARRAY])[..k];
    assert k < |body|;
    assert p[|head|..] == body[..k];
  }

  lemma TornLine(e: CastEvent, p: Text, q: Text)
    requires p == HeadOf(e) + q && ParseItems([QUOTE] + (q + TORN)) == None
    ensures Parse(p + TORN) == None
  {
    hide Parse, ParseItems, Print, NumberOf, KindOf, Proper, EndsNumber;
    NumberAndKindAreProper(e);
    var third := [QUOTE] + (q + TORN);
    var second := Print(KindOf(e)) + ([COMMA] + third);
    ItemsFail(KindOf(e), third);
    CommaEndsNumber(second);
    ItemsFail(NumberOf(e), second);
    FirstUnit(NumberOf(e));
    var inside := Print(NumberOf(e)) + ([COMMA] + second);
    ArrayFails(inside);
    assert p + TORN == [OPEN_ARRAY] + inside;
  }

  lemma NumberAndKindAreProper(e: CastEvent)
    ensures Proper(NumberOf(e)) && Proper(KindOf(e)) && NumberOf(e).Num? && KindOf(e).Str?
  {
  }

  lemma CommaEndsNumber(rest: Text)
    ensures EndsNumber([COMMA] + rest)
  {
  }

  // ---------------------------------------------------------------------------
  // Files
  // ---------------------------------------------------------------------------

  lemma {:induction false} TornBodyReads(events: seq<CastEvent>, q: Text)
    requires q < Body(events) && Body(events)[|q|] >= 0x80
    ensures ParseLines(Split(q + TORN)) == ParseLines(Split(q))
  {
    hide EncodeEvent, Parse, Split, ParseLines;
    if events != [] {
      var line := EncodeEvent(events[0]);
      EventLine(events[0]);
      assert Body(events) == line + ([NEWLINE] + Body(events[1..]));
      if |q| <= |line| {
        assert |q| < |line| && q < line && line[|q|] == Body(events)[|q|];
        TornEventFails(events[0], q);
        TornLineReads(line, q);
      } else {
        var r := q[|line| + 1..];
        assert q == line + [NEWLINE] + r;
        assert r < Body(events[1..]) && Body(events[1..])[|r|] == Body(events)[|q|];
        TornBodyReads(events[1..], r);
        SplitFirst(line, r);
        SplitFirst(line, r + TORN);
        assert q + TORN == line + [NEWLINE] + (r + TORN);
        SameTail(line, Split(r), Split(r + TORN));
      }
    }
  }

  lemma SameTail(line: Text, a: seq<Text>, b: seq<Text>)
    requires a != [] && b != [] && ParseLines(a) == ParseLines(b)
    ensures ParseLines([line] + a) == ParseLines([line] + b)
  {
    assert ([line] + a)[1..] == a && ([line] + b)[1..] == b;
    hide Parse, Blank, ToEvent;
  }

  lemma TornLineReads(line: Text, q: Text)
    requires OneLine(line) && line != [] && line[0] == OPEN_ARRAY && q < line && line[|q|] >= 0x80
    requires (forall p | p < line :: Parse(p) == None) && Parse(q + TORN) == None
    ensures ParseLines(Split(q + TORN)) == ParseLines(Split(q))
  {
    hide Parse, Split;
    assert q != [] && q[0] == OPEN_ARRAY && !IsBlank(q[0]);
    assert OneLine(q) && OneLine(q + TORN);
    SplitOneLine(q);
    SplitOneLine(q + TORN);
    assert [q][1..] == [] && [q + TORN][1..] == [];
    assert (q + TORN)[0] == q[0] && !Blank(q) && !Blank(q + TORN);
    assert Parse(q) == None;
    assert ParseLines([q]) == ([], true) && ParseLines([q + TORN]) == ([], true);
  }

  /** Main result: cut the bytes of an encoded cast anywhere after its header. What a browser reads from them
    * parses as the longest whole text that fits in them, which `AnyCutParses` is about: a character cut in
    * two is not noticed. */
  lemma AnyByteCutParses(header: Json, events: seq<CastEvent>, bytes: seq<Utf8.Byte>) returns (p: Text)
    requires Proper(header) && IsVersion2(header)
    requires bytes <= Utf8.Encode(EncodeCast(header, events)) && Utf8.Encode(Print(header)) <= bytes
    ensures p <= EncodeCast(header, events) && |Print(header)| <= |p|
    ensures Utf8.Encode(p) <= bytes && |bytes| < |Utf8.Encode(p)| + 4
    ensures ParseCast(Utf8.Decode(bytes)) == ParseCast(p)
  {
    hide Print, EncodeCast, Utf8.Encode, Utf8.Decode, Utf8.Paired, ParseCast, IsVersion2, Body;
    var head := Print(header);
    var rest := [NEWLINE] + Body(events);
    EncodeCastIsBody(header, events);
    assert EncodeCast(header, events) == head + rest;
    PrintIsPaired(header);
    BodyOfEventsIsPaired(events);
    JoinsAscii([NEWLINE], Body(events));
    Utf8.EncodeJoins(head, rest);
    var h := Utf8.Encode(head);
    var more := bytes[|h|..];
    assert bytes == h + more && more <= Utf8.Encode(rest);
    var q := Utf8.AnyByteCutReads(rest, more);
    p := head + q;
    Utf8.EncodeJoins(head, q);
    Utf8.DecodeInvertsEncode(head, more);
    assert p <= head + rest;
    if Utf8.Decode(more) == q {
      assert Utf8.Decode(bytes) == p;
    } else {
      assert q != [];
      var r := q[1..];
      assert q == [NEWLINE] + r && r < Body(events) && Body(events)[|r|] == rest[|q|];
      TornBodyReads(events, r);
      assert Utf8.Decode(bytes) == head + (q + TORN);
      TornFileReads(header, r);
      assert p == head + [NEWLINE] + r;
      assert head + (q + TORN) == head + [NEWLINE] + (r + TORN);
    }
  }

  lemma TornFileReads(header: Json, r: Text)
    requires Proper(header) && IsVersion2(header) && ParseLines(Split(r + TORN)) == ParseLines(Split(r))
    ensures ParseCast(Print(header) + [NEWLINE] + (r + TORN)) == ParseCast(Print(header) + [NEWLINE] + r)
  {
    hide Print, Parse, Split, ParseLines, IsVersion2;
    HeaderLine(header);
    SplitFirst(Print(header), r);
    SplitFirst(Print(header), r + TORN);
    assert ([Print(header)] + Split(r))[1..] == Split(r);
    assert ([Print(header)] + Split(r + TORN))[1..] == Split(r + TORN);
  }

  /** Main result: a recording killed after any byte past its header opens to a prefix of the events appended. */
  lemma KilledFileOpens(c: CastWriter.Config, ops: seq<CastWriter.Op>, bytes: seq<Utf8.Byte>)
    requires Proper(c.header) && IsVersion2(c.header) && CastWriter.ClockRuns(ops, c.startedAt)
    requires bytes <= Utf8.Encode(CastWriter.Exec(c, CastWriter.Start(c), ops).file) && Utf8.Encode(Print(c.header)) <= bytes
    ensures var r := ParseCast(Utf8.Decode(bytes));
            r.Cast? && r.events <= CastWriter.AllAppended(c, CastWriter.Start(c), ops) && Sorted(r.events)
  {
    hide Print, EncodeCast, Utf8.Encode, Utf8.Decode, ParseCast, IsVersion2, CastWriter.Exec, CastWriter.AllAppended, CastWriter.ClockRuns, Sorted,
      CastWriter.EventBytes;
    CastWriter.FileHoldsWhatWasAppended(c, ops);
    var p := AnyByteCutParses(c.header, CastWriter.AllAppended(c, CastWriter.Start(c), ops), bytes);
    CastWriter.KilledRecordingOpens(c, ops, p);
  }
}
