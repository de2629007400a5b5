/** The `.cast` file format (packages/cast/src/format.ts): a header line, then one JSON array per event. */
module CastFormat {
  import opened Options
  import opened Json
  import opened JsonProofs

  datatype Kind = Output | Resize

  datatype CastEvent = CastEvent(time: real, kind: Kind, data: Text)

  datatype ParseError = Empty | NotJson | WrongVersion

  datatype Parsed = Failed(error: ParseError) | Cast(header: Json, events: seq<CastEvent>, truncated: bool)

  const NEWLINE := 0x0A

  // ---------------------------------------------------------------------------
  // Encoding
  // ---------------------------------------------------------------------------

  /** `toFixed(6)` as a count of microseconds: to the nearest, a tie away from zero. */
  function Micros(seconds: real): int {
    if seconds < 0.0 then -((-seconds * 1000000.0 + 0.5).Floor) else (seconds * 1000000.0 + 0.5).Floor
  }

  function FormatTime(seconds: real): real {
    Micros(seconds) as real / 1000000.0
  }

  const LETTER_O: Text := [0x6F]
  const LETTER_R: Text := [0x72]

  function EventJson(e: CastEvent): Json {
    var n := Normalized(Micros(e.time), 6);
    Arr(Item(Num(n.0, n.1), Item(Str(if e.kind.Output? then LETTER_O else LETTER_R), Item(Str(e.data), NoItems))))
  }

  function EncodeEvent(e: CastEvent): Text {
    Print(EventJson(e))
  }

  lemma EventInFull(e: CastEvent)
    ensures var n := Normalized(Micros(e.time), 6);
            EncodeEvent(e) == [0x5B] + (PrintNumber(n.0, n.1)
              + ([0x2C] + (PrintString(if e.kind.Output? then LETTER_O else LETTER_R) + ([0x2C] + (PrintString(e.data) + [0x5D])))))
  {
    hide PrintNumber, PrintString, Normalized, Micros;
    var n := Normalized(Micros(e.time), 6);
    var last := Item(Str(e.data), NoItems);
    var kind := Str(if e.kind.Output? then LETTER_O else LETTER_R);
    var two := Item(kind, last);
    assert PrintItems(last) == PrintString(e.data) + [CLOSE_ARRAY];
    assert PrintItems(two) == Print(kind) + ([COMMA] + PrintItems(last));
    assert PrintItems(Item(Num(n.0, n.1), two)) == PrintNumber(n.0, n.1) + ([COMMA] + PrintItems(two));
  }

  lemma NumberInFull()
    ensures Normalized(Micros(1.5), 6) == (15, 1) && PrintNumber(15, 1) == [0x31, 0x2E, 0x35]
  {
    assert Micros(1.5) == 1500000;
    assert Normalized(1500000, 6) == Normalized(15000, 4) == Normalized(150, 2) == (15, 1);
    assert Pow10(1) == 10 && Digits(1) == [0x31] && FixedDigits(5, 1) == [0x35];
  }

  lemma StringInFull()
    ensures PrintString(LETTER_O) == [0x22, 0x6F, 0x22] && PrintString([0x61, 0x0A]) == [0x22, 0x61, 0x5C, 0x6E, 0x22]
  {
    assert PrintBody([]) == [0x22] && PrintUnit(0x0A) == [0x5C, 0x6E];
    assert [0x61, 0x0A][1..] == [0x0A];
    assert PrintBody([0x0A]) == [0x5C, 0x6E, 0x22];
  }

  /** One line in full: `[1.5,"o","a\n"]`. */
  lemma ALineInFull()
    ensures EncodeEvent(CastEvent(1.5, Output, [0x61, 0x0A])) ==
              [0x5B] + ([0x31, 0x2E, 0x35] + ([0x2C] + ([0x22, 0x6F, 0x22] + ([0x2C] + ([0x22, 0x61, 0x5C, 0x6E, 0x22] + [0x5D])))))
  {
    hide Print, PrintItems, EventJson, EncodeEvent, PrintNumber, PrintString, Normalized, Micros;
    NumberInFull();
    StringInFull();
    EventInFull(CastEvent(1.5, Output, [0x61, 0x0A]));
  }

  function Join(lines: seq<Text>): Text
    requires lines != []
  {
    if |lines| == 1 then lines[0] else lines[0] + [NEWLINE] + Join(lines[1..])
  }

  function EncodedEvents(events: seq<CastEvent>): (r: seq<Text>)
    ensures |r| == |events|
  {
    seq(|events|, i requires 0 <= i < |events| => EncodeEvent(events[i]))
  }

  function EncodeCast(header: Json, events: seq<CastEvent>): Text {
    Join([Print(header)] + EncodedEvents(events) + [[]])
  }

  // ---------------------------------------------------------------------------
  // Parsing
  // ---------------------------------------------------------------------------

  function Split(text: Text): (r: seq<Text>)
    ensures r != []
  {
    if text == [] then [[]]
    else
      var rest := Split(text[1..]);
      if text[0] == NEWLINE then [[]] + rest else [[text[0]] + rest[0]] + rest[1..]
  }

  /** White space as `trim` understands it. */
  predicate IsBlank(u: Unit) {
    0x09 <= u <= 0x0D || u in {0x20, 0xA0, 0x1680, 0x2028, 0x2029, 0x202F, 0x205F, 0x3000, 0xFEFF} || 0x2000 <= u <= 0x200A
  }

  predicate Blank(line: Text) {
    forall i | 0 <= i < |line| :: IsBlank(line[i])
  }

  /** The last member of that name, as an object read from JSON has it. */
  function Lookup(members: Members, key: Text): Option<Json> {
    match members
    case NoMembers => None
    case Member(k, v, rest) => if Lookup(rest, key).Some? then Lookup(rest, key) else if k == key then Some(v) else None
  }

  const VERSION: Text := [0x76, 0x65, 0x72, 0x73, 0x69, 0x6F, 0x6E]

  predicate IsVersion2(header: Json) {
    header.Obj? && Lookup(header.members, VERSION) == Some(Num(2, 0))
  }

  /** An array of at least three items: a number, an event kind and a string. */
  function ToEvent(j: Json): Option<CastEvent> {
    match j
    case Arr(Item(Num(m, s), Item(Str(kind), Item(Str(data), _)))) =>
      if kind == LETTER_O then Some(CastEvent(Value(m, s), Output, data))
      else if kind == LETTER_R then Some(CastEvent(Value(m, s), Resize, data))
      else None
    case _ => None
  }

  /** The events of these lines, and whether the last of them is torn. */
  function ParseLines(lines: seq<Text>): (seq<CastEvent>, bool) {
    if lines == [] then ([], false)
    else
      var rest := ParseLines(lines[1..]);
      if Blank(lines[0]) then rest
      else
        match Parse(lines[0])
        case None => (rest.0, |lines| == 1 || rest.1)
        case Some(j) =>
          match ToEvent(j)
          case None => rest
          case Some(e) => ([e] + rest.0, rest.1)
  }

  function ParseCast(text: Text): Parsed {
    var lines := Split(text);
    if Blank(lines[0]) then Failed(Empty)
    else
      match Parse(lines[0])
      case None => Failed(NotJson)
      case Some(header) =>
        if !IsVersion2(header) then Failed(WrongVersion)
        else var (events, truncated) := ParseLines(lines[1..]); Cast(header, events, truncated)
  }

  lemma LinesStep(lines: seq<Text>)
    requires lines != []
    ensures var rest := ParseLines(lines[1..]);
            var event := if Blank(lines[0]) || Parse(lines[0]).None? then None else ToEvent(Parse(lines[0]).value);
            && ParseLines(lines).0 == (if event.Some? then [event.value] else []) + rest.0
            && ParseLines(lines).1 == (rest.1 || (|lines| == 1 && !Blank(lines[0]) && Parse(lines[0]).None?))
  {
    hide Parse, Blank, ToEvent;
    if |lines| == 1 { assert lines[1..] == []; }
  }

  /** The parser as it is written: one pass that collects events. */
  method ParseCastLoop(text: Text) returns (r: Parsed)
    ensures r == ParseCast(text)
  {
    hide Parse, Split, Lookup, ParseLines, ToEvent, Blank;
    var lines := Split(text);
    var headerLine := lines[0];
    lines := lines[1..];
    if Blank(headerLine) { return Failed(Empty); }
    var header := Parse(headerLine);
    if header.None? { return Failed(NotJson); }
    if !IsVersion2(header.value) { return Failed(WrongVersion); }
    var events: seq<CastEvent> := [];
    var truncated := false;
    var i := 0;
    assert lines[0..] == lines;
    while i < |lines|
      invariant 0 <= i <= |lines|
      invariant events + ParseLines(lines[i..]).0 == ParseLines(lines).0
      invariant (truncated || ParseLines(lines[i..]).1) == ParseLines(lines).1
    {
      var line := lines[i];
      LinesStep(lines[i..]);
      assert lines[i..][1..] == lines[i + 1..];
      if !Blank(line) {
        var parsed := Parse(line);
        if parsed.None? {
          if i == |lines| - 1 { truncated := true; }
        } else {
          var event := ToEvent(parsed.value);
          if event.Some? { events := events + [event.value]; }
        }
      }
      i := i + 1;
    }
    NoLines();
    assert lines[i..] == [];
    r := Cast(header.value, events, truncated);
  }

  lemma NoLines()
    ensures ParseLines([]) == ([], false)
  {
  }

  // ---------------------------------------------------------------------------
  // Times
  // ---------------------------------------------------------------------------

  /** Rounding is within half a microsecond, and rounding twice is rounding once. */
  lemma RoundingIsClose(seconds: real)
    ensures Micros(FormatTime(seconds)) == Micros(seconds) && FormatTime(FormatTime(seconds)) == FormatTime(seconds)
    ensures -0.0000005 <= FormatTime(seconds) - seconds <= 0.0000005
  {
    var m := Micros(seconds);
    assert FormatTime(seconds) * 1000000.0 == m as real;
    assert (m as real + 0.5).Floor == m && (-(m as real) + 0.5).Floor == -m;
  }

  lemma RoundingIsMonotone(a: real, b: real)
    requires a <= b
    ensures FormatTime(a) <= FormatTime(b)
  {
    if a < 0.0 <= b {
      assert Micros(a) <= 0 <= Micros(b);
    } else if b < 0.0 {
      assert (-a * 1000000.0 + 0.5).Floor >= (-b * 1000000.0 + 0.5).Floor;
    } else {
      assert (a * 1000000.0 + 0.5).Floor <= (b * 1000000.0 + 0.5).Floor;
    }
  }

  function Rounded(e: CastEvent): CastEvent {
    e.(time := FormatTime(e.time))
  }

  function AllRounded(events: seq<CastEvent>): (r: seq<CastEvent>)
    ensures |r| == |events|
  {
    seq(|events|, i requires 0 <= i < |events| => Rounded(events[i]))
  }

  // ---------------------------------------------------------------------------
  // Round trips and torn files
  // ---------------------------------------------------------------------------

  lemma MillionIsPow10()
    ensures Pow10(6) == 1000000
  {
    assert Pow10(3) == 1000;
    assert Pow10(5) == 100000;
  }

  /** One event line: it reads back as the event with its time rounded, holds no line break, is not blank,
    * and nothing shorter parses. */
  lemma EventLine(e: CastEvent)
    ensures Parse(EncodeEvent(e)).Some? && ToEvent(Parse(EncodeEvent(e)).value) == Some(Rounded(e))
    ensures OneLine(EncodeEvent(e)) && EncodeEvent(e) != [] && EncodeEvent(e)[0] == OPEN_ARRAY
    ensures forall p | p < EncodeEvent(e) :: Parse(p) == None
  {
    var j := EventJson(e);
    var third := Item(Str(e.data), NoItems);
    assert ProperItems(NoItems);
    assert ProperItems(third);
    assert ProperItems(j.items.tail);
    assert Proper(j);
    ParseInvertsPrint(j);
    PrintIsOneLine(j);
    FirstUnit(j);
    MillionIsPow10();
    NormalizingKeepsValue(Micros(e.time), 6);
    assert Value(Micros(e.time), 6) == FormatTime(e.time);
    forall p | p < Print(j) ensures Parse(p) == None { NoProperPrefixParses(j, p); }
  }

  lemma TailIsOneLine(line: Text)
    requires OneLine(line) && line != []
    ensures OneLine(line[1..]) && line[0] != NEWLINE
  {
    forall i | 0 <= i < |line[1..]| ensures line[1..][i] >= 0x20 { assert line[1..][i] == line[i + 1]; }
  }

  lemma {:induction false} SplitOneLine(line: Text)
    requires OneLine(line)
    ensures Split(line) == [line]
  {
    if line != [] {
      TailIsOneLine(line);
      SplitOneLine(line[1..]);
      assert Split(line) == [[line[0]] + line[1..]] + [line[1..]][1..];
      assert [line[0]] + line[1..] == line;
    }
  }

  lemma {:induction false} SplitFirst(line: Text, rest: Text)
    requires OneLine(line)
    ensures Split(line + [NEWLINE] + rest) == [line] + Split(rest)
  {
    var all := line + [NEWLINE] + rest;
    if line == [] {
      assert all[1..] == rest;
    } else {
      TailIsOneLine(line);
      SplitFirst(line[1..], rest);
      assert all[1..] == line[1..] + [NEWLINE] + rest;
      assert ([line[1..]] + Split(rest))[1..] == Split(rest);
      assert [line[0]] + line[1..] == line;
    }
  }

  /** What follows the header's line break. */
  function Body(events: seq<CastEvent>): Text {
    if events == [] then [] else EncodeEvent(events[0]) + [NEWLINE] + Body(events[1..])
  }

  lemma {:induction false} JoinIsBody(events: seq<CastEvent>)
    ensures Join(EncodedEvents(events) + [[]]) == Body(events)
  {
    hide EncodeEvent;
    var lines := EncodedEvents(events) + [[]];
    if events == [] {
      assert lines == [[]];
    } else {
      JoinIsBody(events[1..]);
      assert lines[1..] == EncodedEvents(events[1..]) + [[]];
    }
  }

  lemma EncodeCastIsBody(header: Json, events: seq<CastEvent>)
    ensures EncodeCast(header, events) == Print(header) + [NEWLINE] + Body(events)
  {
    hide Print, EncodeEvent;
    JoinIsBody(events);
    var lines := [Print(header)] + EncodedEvents(events) + [[]];
    assert lines[1..] == EncodedEvents(events) + [[]];
  }

  /** Where the line of event `k` begins, counted from the header's line break. */
  function LineStart(events: seq<CastEvent>, k: nat): nat
    requires k <= |events|
  {
    if k == 0 then 0 else |EncodeEvent(events[0])| + 1 + LineStart(events[1..], k - 1)
  }

  /** `n` is how many whole event lines fit in the first `length` units, a last line break not required. */
  predicate FitsExactly(events: seq<CastEvent>, length: nat, n: nat) {
    && n <= |events|
    && (n > 0 ==> LineStart(events, n) <= length + 1)
    && (n < |events| ==> length < LineStart(events, n) + |EncodeEvent(events[n])|)
  }

  /** What the first `length` units of a body should read as. */
  predicate ReadsPrefix(events: seq<CastEvent>, length: nat, r: (seq<CastEvent>, bool)) {
    && FitsExactly(events, length, |r.0|)
    && r.0 == AllRounded(events[..|r.0|])
    && (r.1 <==> |r.0| < |events| && LineStart(events, |r.0|) < length)
  }

  /** The events and the torn flag that any prefix of a body parses to. */
  lemma {:induction false} BodyPrefixParses(events: seq<CastEvent>, q: Text)
    requires q <= Body(events)
    ensures ReadsPrefix(events, |q|, ParseLines(Split(q)))
  {
    hide EncodeEvent, Parse, Split;
    if events == [] {
      SplitOneLine(q);
    } else {
      var line := EncodeEvent(events[0]);
      EventLine(events[0]);
      assert Body(events) == line + [NEWLINE] + Body(events[1..]);
      if |q| <= |line| {
        assert q == line[..|q|];
        SplitOneLine(q);
        ShortPrefix(events, q);
      } else {
        var q2 := q[|line| + 1..];
        assert q == line + [NEWLINE] + q2;
        assert q2 <= Body(events[1..]);
        SplitFirst(line, q2);
        BodyPrefixParses(events[1..], q2);
        LongPrefix(events, q2);
      }
    }
  }

  lemma ShortPrefix(events: seq<CastEvent>, q: Text)
    requires events != [] && q <= EncodeEvent(events[0]) && Split(q) == [q]
    ensures ReadsPrefix(events, |q|, ParseLines(Split(q)))
  {
    hide EncodeEvent, Parse, Split, OneLine, ToEvent, Rounded;
    var line := EncodeEvent(events[0]);
    EventLine(events[0]);
    assert ParseLines([]) == ([], false) && [q][1..] == [];
    if q == [] {
      assert Blank(q);
    } else {
      assert !IsBlank(q[0]);
      if q == line {
        assert events[..1] == [events[0]];
        assert AllRounded(events[..1]) == [Rounded(events[0])];
        assert LineStart(events, 1) == |line| + 1 + LineStart(events[1..], 0);
      } else {
        assert q < line;
        assert Parse(q) == None;
      }
    }
  }

  lemma LongPrefix(events: seq<CastEvent>, q2: Text)
    requires events != []
    requires ReadsPrefix(events[1..], |q2|, ParseLines(Split(q2)))
    ensures ReadsPrefix(events, |EncodeEvent(events[0])| + 1 + |q2|, ParseLines([EncodeEvent(events[0])] + Split(q2)))
  {
    hide EncodeEvent, Parse, Split, OneLine, ToEvent, Rounded;
    var line := EncodeEvent(events[0]);
    EventLine(events[0]);
    assert !IsBlank(line[0]);
    var r2 := ParseLines(Split(q2));
    assert ([line] + Split(q2))[1..] == Split(q2);
    assert ParseLines([line] + Split(q2)) == ([Rounded(events[0])] + r2.0, r2.1);
    hide ParseLines, ReadsPrefix, LineStart, AllRounded;
    PrefixSteps(events, |q2|, r2);
  }

  lemma PrefixSteps(events: seq<CastEvent>, length: nat, r: (seq<CastEvent>, bool))
    requires events != [] && ReadsPrefix(events[1..], length, r)
    ensures ReadsPrefix(events, |EncodeEvent(events[0])| + 1 + length, ([Rounded(events[0])] + r.0, r.1))
  {
    var tail := events[1..];
    var n := |r.0|;
    assert LineStart(tail, 0) == 0;
    LineStartSteps(events, n);
    hide EncodeEvent, LineStart, Rounded;
    assert events[..n + 1] == [events[0]] + tail[..n];
    assert AllRounded(events[..n + 1]) == [Rounded(events[0])] + AllRounded(tail[..n]);
    hide AllRounded;
    assert n + 1 < |events| ==> tail[n] == events[n + 1];
    assert |[Rounded(events[0])] + r.0| == n + 1;
  }

  lemma LineStartSteps(events: seq<CastEvent>, n: nat)
    requires events != [] && n < |events|
    ensures LineStart(events, n + 1) == |EncodeEvent(events[0])| + 1 + LineStart(events[1..], n)
  {
  }

  lemma HeaderLine(header: Json)
    requires Proper(header) && IsVersion2(header)
    ensures Parse(Print(header)) == Some(header) && OneLine(Print(header)) && !Blank(Print(header)) && Print(header) != []
  {
    ParseInvertsPrint(header);
    PrintIsOneLine(header);
    FirstUnit(header);
    assert !IsBlank(Print(header)[0]);
  }

  /** Main result: cut an encoded cast anywhere after its header. What is left parses to exactly the events
    * whose lines are whole, in order, with times rounded to the microsecond, and it is reported truncated
    * exactly when the cut fell strictly inside an event line. */
  lemma AnyCutParses(header: Json, events: seq<CastEvent>, p: Text)
    requires Proper(header) && IsVersion2(header)
    requires p <= EncodeCast(header, events) && |Print(header)| <= |p|
    ensures var r := ParseCast(p);
            && r.Cast? && r.header == header
            && (|p| == |Print(header)| ==> r.events == [] && !r.truncated)
            && (|p| > |Print(header)| ==> ReadsPrefix(events, |p| - |Print(header)| - 1, (r.events, r.truncated)))
  {
    hide Print, EncodeCast, Parse, Split, EncodeEvent, Body, IsVersion2, ParseLines, ReadsPrefix;
    var line := Print(header);
    HeaderLine(header);
    EncodeCastIsBody(header, events);
    if |p| == |line| {
      assert p == line;
      SplitOneLine(p);
      NoLines();
      assert [line][1..] == [];
    } else {
      var q := p[|line| + 1..];
      assert p == line + [NEWLINE] + q;
      assert q <= Body(events);
      SplitFirst(line, q);
      assert ([line] + Split(q))[1..] == Split(q);
      BodyPrefixParses(events, q);
      var r := ParseLines(Split(q));
      assert ParseCast(p) == Cast(header, r.0, r.1) && r == (r.0, r.1);
    }
  }

  lemma {:induction false} BodyLength(events: seq<CastEvent>)
    ensures |Body(events)| == LineStart(events, |events|)
  {
    hide EncodeEvent;
    if events != [] { BodyLength(events[1..]); }
  }

  lemma WholeBodyReads(events: seq<CastEvent>, r: (seq<CastEvent>, bool))
    requires ReadsPrefix(events, LineStart(events, |events|), r)
    ensures r == (AllRounded(events), false)
  {
    hide EncodeEvent, LineStart, AllRounded;
    AllLinesFit(events, |r.0|);
    assert events[..|events|] == events;
  }

  /** Main result: the whole file reads back, times rounded to the microsecond; a second trip changes nothing. */
  lemma WholeFileRoundTrips(header: Json, events: seq<CastEvent>)
    requires Proper(header) && IsVersion2(header)
    ensures ParseCast(EncodeCast(header, events)) == Cast(header, AllRounded(events), false)
    ensures EncodeCast(header, AllRounded(events)) == EncodeCast(header, events)
  {
    hide Print, ParseCast, Body, EncodeCast, LineStart, AllRounded, ReadsPrefix, IsVersion2, Proper;
    var p := EncodeCast(header, events);
    EncodeCastIsBody(header, events);
    BodyLength(events);
    AnyCutParses(header, events, p);
    var r := ParseCast(p);
    WholeBodyReads(events, (r.events, r.truncated));
    RoundedLinesSame(header, events);
  }

  lemma {:induction false} LineStartsGrow(events: seq<CastEvent>, n: nat)
    requires n < |events|
    ensures LineStart(events, n) + |EncodeEvent(events[n])| + 1 <= LineStart(events, |events|)
  {
    hide EncodeEvent;
    if n > 0 {
      LineStartsGrow(events[1..], n - 1);
      assert events[1..][n - 1] == events[n];
    }
  }

  lemma AllLinesFit(events: seq<CastEvent>, n: nat)
    requires FitsExactly(events, LineStart(events, |events|), n)
    ensures n == |events|
  {
    hide EncodeEvent, LineStart;
    if n < |events| { LineStartsGrow(events, n); }
  }

  lemma RoundedLinesSame(header: Json, events: seq<CastEvent>)
    ensures EncodeCast(header, AllRounded(events)) == EncodeCast(header, events)
  {
    hide Print, Normalized;
    forall i | 0 <= i < |events| ensures EncodeEvent(AllRounded(events)[i]) == EncodeEvent(events[i]) {
      RoundingIsClose(events[i].time);
    }
    assert EncodedEvents(AllRounded(events)) == EncodedEvents(events);
  }

  /** A cut inside the header leaves nothing to read: the file is refused. */
  lemma CutHeaderIsRefused(header: Json, p: Text)
    requires Proper(header) && IsVersion2(header) && p < Print(header)
    ensures ParseCast(p) == Failed(if p == [] then Empty else NotJson)
  {
    HeaderLine(header);
    FirstUnit(header);
    NoProperPrefixParses(header, p);
    hide Print, Parse;
    assert OneLine(p);
    SplitOneLine(p);
    if p != [] { assert !IsBlank(p[0]); }
  }

  /** A malformed line before the last is skipped, and is never taken for a torn one. */
  lemma {:induction false} InteriorDamageIsSkipped(before: seq<Text>, bad: Text, after: seq<Text>)
    requires after != [] && !Blank(bad) && (Parse(bad).None? || ToEvent(Parse(bad).value).None?)
    ensures ParseLines(before + [bad] + after) == ParseLines(before + after)
  {
    hide Parse, Blank, ToEvent;
    var all := before + [bad] + after;
    if before == [] {
      assert all[1..] == after && before + after == after;
    } else {
      InteriorDamageIsSkipped(before[1..], bad, after);
      assert all[1..] == before[1..] + [bad] + after;
      assert (before + after)[1..] == before[1..] + after;
    }
  }

  // ---------------------------------------------------------------------------
  // Sizes
  // ---------------------------------------------------------------------------

  datatype Size = Size(cols: nat, rows: nat)

  const LETTER_X: Unit := 0x78

  function EncodeSize(size: Size): Text {
    Digits(size.cols) + [LETTER_X] + Digits(size.rows)
  }

  /** Digits, an `x`, digits, and nothing else. */
  function ParseSize(data: Text): Option<Size> {
    var (cols, n, left) := ReadDigits(data, 0, 0);
    if n == 0 || left == [] || left[0] != LETTER_X then None
    else
      var (rows, m, rest) := ReadDigits(left[1..], 0, 0);
      if m == 0 || rest != [] then None else Some(Size(cols, rows))
  }

  lemma SizeRoundTrips(size: Size)
    ensures ParseSize(EncodeSize(size)) == Some(size)
  {
    var tail := [LETTER_X] + Digits(size.rows);
    ReadsDigits(size.cols, tail);
    assert EncodeSize(size) == Digits(size.cols) + tail;
    assert tail[1..] == Digits(size.rows) == Digits(size.rows) + [];
    ReadsDigits(size.rows, []);
    LeadingDigit(size.cols);
    LeadingDigit(size.rows);
    hide Digits;
  }

  lemma SizesAreDistinct(a: Size, b: Size)
    requires EncodeSize(a) == EncodeSize(b)
    ensures a == b
  {
    SizeRoundTrips(a);
    SizeRoundTrips(b);
  }

  predicate Sorted(events: seq<CastEvent>) {
    forall i, j | 0 <= i < j < |events| :: events[i].time <= events[j].time
  }

  function CastDuration(events: seq<CastEvent>): real {
    if events == [] then 0.0 else events[|events| - 1].time
  }
}
