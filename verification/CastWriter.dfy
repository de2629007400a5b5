/** The recording writer (packages/cast/src/writer.ts): appends events to a `.cast` until it is stopped.

  Clock readings, in milliseconds, are parameters: `now` is read for the event's time and `later` for the
  limit check after it. The file is the text handed to the stream so far.
 */
module CastWriter {
  import opened Options
  import opened Json
  import opened JsonProofs
  import opened CastFormat

  datatype Reason = Requested | Limit | Error

  datatype Config = Config(header: Json, startedAt: real, size: Size, maxBytes: Option<nat>, maxMs: Option<real>)

  datatype Writer = Writer(file: Text, bytes: nat, events: nat, stopped: bool, reason: Option<Reason>, size: Size)

  /** Bytes of a text in UTF-8, a surrogate pair taking four. */
  function Utf8Length(s: Text): nat {
    if s == [] then 0
    else if |s| >= 2 && High(s[0]) && Low(s[1]) then 4 + Utf8Length(s[2..])
    else (if s[0] < 0x80 then 1 else if s[0] < 0x800 then 2 else 3) + Utf8Length(s[1..])
  }

  const WIDTH: Text := [0x77, 0x69, 0x64, 0x74, 0x68]
  const HEIGHT: Text := [0x68, 0x65, 0x69, 0x67, 0x68, 0x74]
  const TIMESTAMP: Text := [0x74, 0x69, 0x6D, 0x65, 0x73, 0x74, 0x61, 0x6D, 0x70]
  const IDLE_LIMIT: Text := [0x69, 0x64, 0x6C, 0x65, 0x5F, 0x74, 0x69, 0x6D, 0x65, 0x5F, 0x6C, 0x69, 0x6D, 0x69, 0x74]
  const TITLE: Text := [0x74, 0x69, 0x74, 0x6C, 0x65]
  const ENV: Text := [0x65, 0x6E, 0x76]
  const TERM: Text := [0x54, 0x45, 0x52, 0x4D]

  /** The header the writer puts first. The idle limit is any number in normal form; a zero one, an empty title and an empty terminal are left out. */
  function WriterHeader(size: Size, timestamp: nat, idleLimit: Json, title: Text, term: Text): Json {
    var env := if term == [] then NoMembers else Member(ENV, Obj(Member(TERM, Str(term), NoMembers)), NoMembers);
    var named := if title == [] then env else Member(TITLE, Str(title), env);
    var limited := if idleLimit == Num(0, 0) then named else Member(IDLE_LIMIT, idleLimit, named);
    Obj(Member(VERSION, Num(2, 0), Member(WIDTH, Num(size.cols, 0), Member(HEIGHT, Num(size.rows, 0), Member(TIMESTAMP, Num(timestamp, 0), limited)))))
  }

  /** The header is one the parser takes back, with the size and the title it was given, and no other environment. */
  lemma WriterHeaderIsGood(size: Size, timestamp: nat, idleLimit: Json, title: Text, term: Text)
    requires idleLimit.Num? && Proper(idleLimit)
    ensures var h := WriterHeader(size, timestamp, idleLimit, title, term);
            && Proper(h) && IsVersion2(h)
            && Lookup(h.members, WIDTH) == Some(Num(size.cols, 0)) && Lookup(h.members, HEIGHT) == Some(Num(size.rows, 0))
            && Lookup(h.members, TITLE) == (if title == [] then None else Some(Str(title)))
            && Lookup(h.members, ENV) == (if term == [] then None else Some(Obj(Member(TERM, Str(term), NoMembers))))
  {
    var env := if term == [] then NoMembers else Member(ENV, Obj(Member(TERM, Str(term), NoMembers)), NoMembers);
    var named := if title == [] then env else Member(TITLE, Str(title), env);
    var limited := if idleLimit == Num(0, 0) then named else Member(IDLE_LIMIT, idleLimit, named);
    TailLookups(limited, idleLimit, title, term);
    assert |VERSION| == 7 && |WIDTH| == 5 && |HEIGHT| == 6 && |TIMESTAMP| == 9 && |ENV| == 3 && |TITLE| == 5;
    assert WIDTH[0] != TITLE[0];
    var timed := Member(TIMESTAMP, Num(timestamp, 0), limited);
    var tall := Member(HEIGHT, Num(size.rows, 0), timed);
    var wide := Member(WIDTH, Num(size.cols, 0), tall);
    hide Lookup;
    LookupStep(TIMESTAMP, Num(timestamp, 0), limited);
    LookupStep(HEIGHT, Num(size.rows, 0), timed);
    LookupStep(WIDTH, Num(size.cols, 0), tall);
    LookupStep(VERSION, Num(2, 0), wide);
    assert ProperMembers(timed);
    assert ProperMembers(tall);
    assert ProperMembers(wide);
    assert ProperMembers(Member(VERSION, Num(2, 0), wide));
  }

  lemma LookupStep(key: Text, value: Json, rest: Members)
    ensures forall k :: Lookup(Member(key, value, rest), k) == if Lookup(rest, k).Some? then Lookup(rest, k) else if k == key then Some(value) else None
  {
  }

  lemma TermIsProper(term: Text)
    ensures Proper(Obj(Member(TERM, Str(term), NoMembers)))
  {
    assert Proper(Str(term)) && ProperMembers(NoMembers);
    assert ProperMembers(Member(TERM, Str(term), NoMembers));
  }

  /** What the optional members hold. */
  lemma TailLookups(limited: Members, idleLimit: Json, title: Text, term: Text)
    requires Proper(idleLimit)
    requires var env := if term == [] then NoMembers else Member(ENV, Obj(Member(TERM, Str(term), NoMembers)), NoMembers);
             var named := if title == [] then env else Member(TITLE, Str(title), env);
             limited == if idleLimit == Num(0, 0) then named else Member(IDLE_LIMIT, idleLimit, named)
    ensures ProperMembers(limited)
    ensures Lookup(limited, VERSION).None? && Lookup(limited, WIDTH).None? && Lookup(limited, HEIGHT).None?
    ensures Lookup(limited, TITLE) == (if title == [] then None else Some(Str(title)))
    ensures Lookup(limited, ENV) == (if term == [] then None else Some(Obj(Member(TERM, Str(term), NoMembers))))
  {
    var envValue := Obj(Member(TERM, Str(term), NoMembers));
    var env := if term == [] then NoMembers else Member(ENV, envValue, NoMembers);
    var named := if title == [] then env else Member(TITLE, Str(title), env);
    assert |VERSION| == 7 && |WIDTH| == 5 && |HEIGHT| == 6 && |IDLE_LIMIT| == 15 && |ENV| == 3 && |TITLE| == 5;
    assert WIDTH[0] != TITLE[0];
    assert ProperMembers(NoMembers);
    TermIsProper(term);
    assert ProperMembers(env) && ProperMembers(named);
    assert forall k :: Lookup(NoMembers, k) == None;
    LookupStep(ENV, envValue, NoMembers);
    LookupStep(TITLE, Str(title), env);
    LookupStep(IDLE_LIMIT, idleLimit, named);
    hide Lookup, ProperMembers, Proper;
  }

  function Start(c: Config): Writer {
    Writer(Print(c.header) + [NEWLINE], 0, 0, false, None, c.size)
  }

  function Elapsed(c: Config, now: real): real {
    FormatTime((now - c.startedAt) / 1000.0)
  }

  function LineOf(e: CastEvent): Text {
    EncodeEvent(e) + [NEWLINE]
  }

  function Append(w: Writer, e: CastEvent): Writer {
    w.(file := w.file + LineOf(e), bytes := w.bytes + Utf8Length(LineOf(e)), events := w.events + 1)
  }

  predicate OverLimit(c: Config, w: Writer, now: real) {
    (c.maxBytes.Some? && w.bytes >= c.maxBytes.value) || (c.maxMs.Some? && now - c.startedAt >= c.maxMs.value)
  }

  function Stop(w: Writer, reason: Reason): Writer {
    if w.stopped then w else w.(stopped := true, reason := Some(reason))
  }

  function AppendAndCheck(c: Config, w: Writer, e: CastEvent, later: real): Writer {
    var t := Append(w, e);
    if OverLimit(c, t, later) then Stop(t, Limit) else t
  }

  function Write(c: Config, w: Writer, data: Text, now: real, later: real): Writer {
    if w.stopped || data == [] then w else AppendAndCheck(c, w, CastEvent(Elapsed(c, now), Output, data), later)
  }

  function ResizeTo(c: Config, w: Writer, size: Size, now: real, later: real): Writer {
    if w.stopped || size == w.size then w
    else AppendAndCheck(c, w.(size := size), CastEvent(Elapsed(c, now), Resize, EncodeSize(size)), later)
  }

  datatype Op = WriteOp(data: Text, now: real, later: real) | ResizeOp(size: Size, now: real, later: real) | StopOp(reason: Reason)

  function Apply(c: Config, w: Writer, op: Op): Writer {
    match op
    case WriteOp(data, now, later) => Write(c, w, data, now, later)
    case ResizeOp(size, now, later) => ResizeTo(c, w, size, now, later)
    case StopOp(reason) => Stop(w, reason)
  }

  /** The event an operation appends, if it appends one. */
  function Appended(c: Config, w: Writer, op: Op): seq<CastEvent> {
    match op
    case WriteOp(data, now, _) => if w.stopped || data == [] then [] else [CastEvent(Elapsed(c, now), Output, data)]
    case ResizeOp(size, now, _) => if w.stopped || size == w.size then [] else [CastEvent(Elapsed(c, now), Resize, EncodeSize(size))]
    case StopOp(_) => []
  }

  function Exec(c: Config, w: Writer, ops: seq<Op>): Writer
    decreases |ops|
  {
    if ops == [] then w else Exec(c, Apply(c, w, ops[0]), ops[1..])
  }

  function AllAppended(c: Config, w: Writer, ops: seq<Op>): seq<CastEvent>
    decreases |ops|
  {
    if ops == [] then [] else Appended(c, w, ops[0]) + AllAppended(c, Apply(c, w, ops[0]), ops[1..])
  }

  /** The clock never goes back. */
  predicate ClockRuns(ops: seq<Op>, from: real) {
    if ops == [] then true
    else if ops[0].StopOp? then ClockRuns(ops[1..], from)
    else from <= ops[0].now <= ops[0].later && ClockRuns(ops[1..], ops[0].later)
  }

  // ---------------------------------------------------------------------------
  // What every run of a writer keeps
  // ---------------------------------------------------------------------------

  function EventBytes(events: seq<CastEvent>): nat {
    if events == [] then 0 else EventBytes(events[..|events| - 1]) + Utf8Length(LineOf(events[|events| - 1]))
  }

  predicate TimesOk(c: Config, events: seq<CastEvent>, last: real) {
    && Sorted(events)
    && (forall i | 0 <= i < |events| :: events[i].time <= Elapsed(c, last) && FormatTime(events[i].time) == events[i].time)
  }

  /** Only the line that crossed the byte limit can be beyond it. */
  predicate BytesOk(c: Config, w: Writer, events: seq<CastEvent>) {
    && w.bytes == EventBytes(events)
    && (c.maxBytes.Some? && !w.stopped ==> w.bytes < c.maxBytes.value || events == [])
    && (c.maxBytes.Some? && events != [] ==> EventBytes(events[..|events| - 1]) < c.maxBytes.value || |events| == 1)
  }

  predicate WriterOk(c: Config, w: Writer, events: seq<CastEvent>, last: real) {
    && w.file == Print(c.header) + [NEWLINE] + Body(events)
    && w.events == |events|
    && (w.stopped <==> w.reason.Some?)
    && BytesOk(c, w, events)
    && TimesOk(c, events, last)
  }

  lemma {:induction false} BodyGrows(events: seq<CastEvent>, e: CastEvent)
    ensures Body(events + [e]) == Body(events) + LineOf(e)
  {
    hide EncodeEvent;
    if events == [] {
      assert (events + [e])[1..] == [];
    } else {
      BodyGrows(events[1..], e);
      assert (events + [e])[1..] == events[1..] + [e];
    }
  }

  lemma ElapsedIsMonotone(c: Config, a: real, b: real)
    requires a <= b
    ensures Elapsed(c, a) <= Elapsed(c, b)
    ensures FormatTime(Elapsed(c, a)) == Elapsed(c, a)
  {
    RoundingIsMonotone((a - c.startedAt) / 1000.0, (b - c.startedAt) / 1000.0);
    RoundingIsClose((a - c.startedAt) / 1000.0);
  }

  lemma TimesGrow(c: Config, events: seq<CastEvent>, e: CastEvent, last: real, now: real, later: real)
    requires TimesOk(c, events, last) && last <= now <= later && e.time == Elapsed(c, now)
    ensures TimesOk(c, events + [e], later)
  {
    ElapsedIsMonotone(c, last, now);
    ElapsedIsMonotone(c, now, later);
    hide Elapsed, FormatTime;
  }

  lemma BytesGrow(c: Config, w: Writer, events: seq<CastEvent>, e: CastEvent, later: real)
    requires BytesOk(c, w, events) && !w.stopped
    ensures BytesOk(c, AppendAndCheck(c, w, e, later), events + [e])
  {
    hide LineOf, Utf8Length;
    var more := events + [e];
    assert more[..|more| - 1] == events;
    assert EventBytes(more) == EventBytes(events) + Utf8Length(LineOf(e));
    hide EventBytes;
  }

  lemma AppendKeeps(c: Config, w: Writer, events: seq<CastEvent>, e: CastEvent, last: real, now: real, later: real)
    requires WriterOk(c, w, events, last) && !w.stopped && last <= now <= later && e.time == Elapsed(c, now)
    ensures WriterOk(c, AppendAndCheck(c, w, e, later), events + [e], later)
  {
    hide Body, LineOf, Print, TimesOk, Elapsed, Utf8Length, BytesOk, EventBytes;
    BodyGrows(events, e);
    TimesGrow(c, events, e, last, now, later);
    BytesGrow(c, w, events, e, later);
    assert Print(c.header) + [NEWLINE] + Body(events) + LineOf(e) == Print(c.header) + [NEWLINE] + (Body(events) + LineOf(e));
  }

  function Latest(op: Op, last: real): real {
    if op.StopOp? then last else op.later
  }

  lemma LaterIsFine(c: Config, w: Writer, events: seq<CastEvent>, last: real, later: real)
    requires WriterOk(c, w, events, last) && last <= later
    ensures WriterOk(c, w, events, later)
  {
    ElapsedIsMonotone(c, last, later);
    hide Elapsed, FormatTime, Body, Print, BytesOk;
  }

  lemma ApplyKeeps(c: Config, w: Writer, events: seq<CastEvent>, op: Op, last: real)
    requires WriterOk(c, w, events, last) && (!op.StopOp? ==> last <= op.now <= op.later)
    ensures WriterOk(c, Apply(c, w, op), events + Appended(c, w, op), Latest(op, last))
    ensures w.stopped ==> Apply(c, w, op) == w && Appended(c, w, op) == []
  {
    hide AppendAndCheck;
    assert events + [] == events;
    if Appended(c, w, op) == [] {
      LaterIsFine(c, w, events, last, Latest(op, last));
      hide Body, Print, BytesOk, TimesOk, Elapsed;
      if op.StopOp? { StopKeeps(c, w, events, op.reason, last); }
    } else {
      var e := Appended(c, w, op)[0];
      var v := if op.ResizeOp? then w.(size := op.size) else w;
      assert WriterOk(c, v, events, last) by { hide Body, Print, TimesOk, EventBytes; }
      hide WriterOk, Elapsed;
      AppendKeeps(c, v, events, e, last, op.now, op.later);
    }
  }

  lemma StopKeeps(c: Config, w: Writer, events: seq<CastEvent>, reason: Reason, last: real)
    requires WriterOk(c, w, events, last)
    ensures WriterOk(c, Stop(w, reason), events, last)
  {
    hide Body, Print, TimesOk, EventBytes;
  }

  lemma {:induction false} RunsKeep(c: Config, w: Writer, events: seq<CastEvent>, ops: seq<Op>, last: real) returns (end: real)
    requires WriterOk(c, w, events, last) && ClockRuns(ops, last)
    ensures WriterOk(c, Exec(c, w, ops), events + AllAppended(c, w, ops), end)
    ensures w.stopped ==> Exec(c, w, ops) == w && AllAppended(c, w, ops) == []
    decreases |ops|
  {
    hide WriterOk, Apply, Appended;
    if ops == [] {
      assert events + [] == events;
      end := last;
    } else {
      ApplyKeeps(c, w, events, ops[0], last);
      var first := Appended(c, w, ops[0]);
      end := RunsKeep(c, Apply(c, w, ops[0]), events + first, ops[1..], Latest(ops[0], last));
      assert events + first + AllAppended(c, Apply(c, w, ops[0]), ops[1..]) == events + (first + AllAppended(c, Apply(c, w, ops[0]), ops[1..]));
    }
  }

  lemma StartIsOk(c: Config)
    ensures WriterOk(c, Start(c), [], c.startedAt)
  {
    hide Print;
    assert Print(c.header) + [NEWLINE] + [] == Print(c.header) + [NEWLINE];
  }

  lemma WholeRun(c: Config, ops: seq<Op>) returns (end: real)
    requires ClockRuns(ops, c.startedAt)
    ensures WriterOk(c, Exec(c, Start(c), ops), AllAppended(c, Start(c), ops), end)
  {
    hide WriterOk, Exec, AllAppended, ClockRuns;
    StartIsOk(c);
    end := RunsKeep(c, Start(c), [], ops, c.startedAt);
    assert [] + AllAppended(c, Start(c), ops) == AllAppended(c, Start(c), ops);
  }

  lemma AlreadyRounded(c: Config, events: seq<CastEvent>, last: real)
    requires TimesOk(c, events, last)
    ensures AllRounded(events) == events && forall n | 0 <= n <= |events| :: AllRounded(events[..n]) == events[..n]
  {
    hide FormatTime, Elapsed;
  }

  lemma BytesConsequences(c: Config, w: Writer, events: seq<CastEvent>)
    requires BytesOk(c, w, events)
    ensures c.maxBytes.Some? && |events| > 0 && (c.maxBytes.value > 0 || |events| > 1) ==> EventBytes(events[..|events| - 1]) < c.maxBytes.value
    ensures c.maxBytes.Some? && c.maxBytes.value == 0 ==> |events| <= 1
  {
    hide LineOf;
  }

  /** Main result: after any run of a writer on a clock that never goes back, the file parses to exactly the
    * events appended, in order, sorted by time and not truncated. All but the last line fit the byte limit,
    * except that a limit of nothing still lets one line in. */
  lemma FileHoldsWhatWasAppended(c: Config, ops: seq<Op>)
    requires Proper(c.header) && IsVersion2(c.header) && ClockRuns(ops, c.startedAt)
    ensures var events := AllAppended(c, Start(c), ops);
            var w := Exec(c, Start(c), ops);
            && w.file == EncodeCast(c.header, events)
            && ParseCast(w.file) == Cast(c.header, events, false)
            && Sorted(events) && w.events == |events| && w.bytes == EventBytes(events)
            && (c.maxBytes.Some? && |events| > 0 && (c.maxBytes.value > 0 || |events| > 1) ==> EventBytes(events[..|events| - 1]) < c.maxBytes.value)
            && (c.maxBytes.Some? && c.maxBytes.value == 0 ==> |events| <= 1)
  {
    hide Body, Print, EncodeCast, ParseCast, Exec, AllAppended, ClockRuns, IsVersion2, Elapsed, FormatTime, EventBytes, AllRounded;
    var end := WholeRun(c, ops);
    var events := AllAppended(c, Start(c), ops);
    EncodeCastIsBody(c.header, events);
    WholeFileRoundTrips(c.header, events);
    AlreadyRounded(c, events, end);
    BytesConsequences(c, Exec(c, Start(c), ops), events);
  }

  /** Main result: a recording killed at any moment after its header reached the disk opens to a prefix of the
    * events appended. */
  lemma KilledRecordingOpens(c: Config, ops: seq<Op>, p: Text)
    requires Proper(c.header) && IsVersion2(c.header) && ClockRuns(ops, c.startedAt)
    requires p <= Exec(c, Start(c), ops).file && |Print(c.header)| <= |p|
    ensures ParseCast(p).Cast? && ParseCast(p).events <= AllAppended(c, Start(c), ops) && Sorted(ParseCast(p).events)
  {
    hide WriterOk, Exec, AllAppended, ClockRuns, Print, EncodeCast, ParseCast, IsVersion2, Sorted, EventBytes, TimesOk;
    FileHoldsWhatWasAppended(c, ops);
    var end := WholeRun(c, ops);
    TimesOfRun(c, Exec(c, Start(c), ops), AllAppended(c, Start(c), ops), end);
    CutOfFile(c, AllAppended(c, Start(c), ops), end, p);
  }

  lemma CutOfFile(c: Config, events: seq<CastEvent>, last: real, p: Text)
    requires Proper(c.header) && IsVersion2(c.header) && TimesOk(c, events, last)
    requires p <= EncodeCast(c.header, events) && |Print(c.header)| <= |p|
    ensures ParseCast(p).Cast? && ParseCast(p).events <= events && Sorted(ParseCast(p).events)
  {
    assert Sorted(events);
    hide Print, EncodeCast, ParseCast, IsVersion2, AllRounded, ReadsPrefix, TimesOk, Sorted, Proper;
    AlreadyRounded(c, events, last);
    AnyCutParses(c.header, events, p);
    var r := ParseCast(p);
    CutIsPrefix(events, r.events, |p| - |Print(c.header)| - 1, r.truncated);
    PrefixIsSorted(events, r.events);
  }

  lemma PrefixIsSorted(events: seq<CastEvent>, read: seq<CastEvent>)
    requires Sorted(events) && read <= events
    ensures Sorted(read)
  {
  }

  lemma TimesOfRun(c: Config, w: Writer, events: seq<CastEvent>, last: real)
    requires WriterOk(c, w, events, last)
    ensures TimesOk(c, events, last)
  {
  }

  lemma CutIsPrefix(events: seq<CastEvent>, read: seq<CastEvent>, length: int, truncated: bool)
    requires length < 0 ==> read == []
    requires length >= 0 ==> ReadsPrefix(events, length, (read, truncated))
    requires forall n | 0 <= n <= |events| :: AllRounded(events[..n]) == events[..n]
    ensures read <= events
  {
    hide AllRounded, LineStart, EncodeEvent;
    if length >= 0 { assert AllRounded(events[..|read|]) == events[..|read|]; }
  }

  /** The event an operation should leave, whatever the writer has done before: any output, and any new size. */
  function Wanted(c: Config, last: Size, op: Op): seq<CastEvent> {
    match op
    case WriteOp(data, now, _) => if data == [] then [] else [CastEvent(FormatTime((now - c.startedAt) / 1000.0), Output, data)]
    case ResizeOp(size, now, _) => if size == last then [] else [CastEvent(FormatTime((now - c.startedAt) / 1000.0), Resize, EncodeSize(size))]
    case StopOp(_) => []
  }

  function AllWanted(c: Config, last: Size, ops: seq<Op>): seq<CastEvent>
    decreases |ops|
  {
    if ops == [] then [] else Wanted(c, last, ops[0]) + AllWanted(c, if ops[0].ResizeOp? then ops[0].size else last, ops[1..])
  }

  /** A writer stops for its limits exactly when an event has brought it to one, and otherwise only when it is told to. */
  lemma StopsExactlyAtItsLimits(c: Config, w: Writer, op: Op)
    requires !w.stopped
    ensures var t := Apply(c, w, op);
            && (op.StopOp? ==> t.stopped && t.reason == Some(op.reason) && t.file == w.file)
            && (!op.StopOp? && Wanted(c, w.size, op) == [] ==> t == w)
            && (!op.StopOp? && Wanted(c, w.size, op) != [] ==>
                  && t.file == w.file + LineOf(Wanted(c, w.size, op)[0]) && t.events == w.events + 1
                  && (t.stopped <==> (c.maxBytes.Some? && c.maxBytes.value <= t.bytes) || (c.maxMs.Some? && c.maxMs.value <= op.later - c.startedAt))
                  && (t.stopped ==> t.reason == Some(Limit)))
  {
    hide LineOf, FormatTime, EncodeSize;
  }

  /** Main result: a writer that was not stopped by the end of a run has appended every output and every change of size. */
  lemma {:induction false} NothingIsLostBeforeTheStop(c: Config, w: Writer, ops: seq<Op>)
    requires !Exec(c, w, ops).stopped
    ensures !w.stopped && AllAppended(c, w, ops) == AllWanted(c, w.size, ops)
    decreases |ops|
  {
    if ops != [] {
      OneMoreWanted(c, w, ops[0]);
      hide Apply, Appended, Wanted;
      NothingIsLostBeforeTheStop(c, Apply(c, w, ops[0]), ops[1..]);
    }
  }

  lemma OneMoreWanted(c: Config, w: Writer, op: Op)
    ensures w.stopped ==> Apply(c, w, op).stopped
    ensures !w.stopped ==> Appended(c, w, op) == Wanted(c, w.size, op) && Apply(c, w, op).size == if op.ResizeOp? then op.size else w.size
  {
    hide LineOf, FormatTime, EncodeSize;
  }

  /** Main result: once stopped, nothing more is appended and the reason stays the one it stopped for. */
  lemma {:induction false} StoppedStaysStopped(c: Config, w: Writer, before: Reason, ops: seq<Op>)
    requires w.stopped && w.reason == Some(before)
    ensures Exec(c, w, ops) == w && AllAppended(c, w, ops) == []
    decreases |ops|
  {
    if ops != [] {
      assert Apply(c, w, ops[0]) == w && Appended(c, w, ops[0]) == [];
      hide Apply, Appended;
      StoppedStaysStopped(c, w, before, ops[1..]);
    }
  }

  /** The writer as it is written. */
  class CastWriterObject {
    const config: Config
    var file: Text
    var bytes: nat
    var events: nat
    var stopped: bool
    var reason: Option<Reason>
    var size: Size

    ghost function View(): Writer
      reads this
    {
      Writer(file, bytes, events, stopped, reason, size)
    }

    constructor (config: Config)
      ensures this.config == config && View() == Start(config)
    {
      this.config := config;
      file, bytes, events, stopped, reason, size := Print(config.header) + [NEWLINE], 0, 0, false, None, config.size;
    }

    method AppendEvent(e: CastEvent)
      modifies this
      ensures View() == Append(old(View()), e)
    {
      var line := LineOf(e);
      file := file + line;
      bytes := bytes + Utf8Length(line);
      events := events + 1;
    }

    method WriteData(data: Text, now: real, later: real)
      modifies this
      ensures View() == Write(config, old(View()), data, now, later)
    {
      hide Elapsed;
      if stopped || data == [] { return; }
      AppendEvent(CastEvent(Elapsed(config, now), Output, data));
      if IsOverLimit(later) { var _ := StopFor(Limit); }
    }

    method ResizeWindow(next: Size, now: real, later: real)
      modifies this
      ensures View() == ResizeTo(config, old(View()), next, now, later)
    {
      hide Elapsed;
      if stopped { return; }
      if next == size { return; }
      size := next;
      AppendEvent(CastEvent(Elapsed(config, now), Resize, EncodeSize(size)));
      if IsOverLimit(later) { var _ := StopFor(Limit); }
    }

    predicate IsOverLimit(now: real)
      reads this
    {
      (config.maxBytes.Some? && bytes >= config.maxBytes.value) || (config.maxMs.Some? && now - config.startedAt >= config.maxMs.value)
    }

    /** Idempotent: a second stop returns the first one's reason. */
    method StopFor(why: Reason) returns (first: Reason)
      requires stopped ==> reason.Some?
      modifies this
      ensures View() == Stop(old(View()), why)
      ensures reason == Some(first)
    {
      if stopped { return reason.value; }
      stopped, reason, first := true, Some(why), why;
    }
  }
}
