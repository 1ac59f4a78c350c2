/** One log event, the line written for it, and what reading that line back yields. */
module LogLine {
  import opened Prelude
  import opened JsonTree
  import opened JsonText

  datatype Level = Trace | Debug | Info | Warn | Error

  datatype FieldValue =
    | Text(text: string)
    | Signed(signed: Int64)
    | Unsigned(unsigned: UInt64)
    | Double(rendered: string)   // what std::to_string makes of it
    | Flag(flag: bool)
    | TextList(texts: seq<string>)

  datatype Entry = Entry(key: string, value: FieldValue)

  datatype LogEvent = LogEvent(
    tsMs: UInt64, level: Level, component: string, message: string,
    fields: seq<Entry>, raw: string, includeRaw: bool)

  function Rank(level: Level): nat {
    match level
    case Trace => 0 case Debug => 1 case Info => 2 case Warn => 3 case Error => 4
  }

  predicate ShouldLog(level: Level, minimum: Level) { Rank(level) >= Rank(minimum) }

  /** The levels in ascending order. */
  const LEVELS: seq<Level> := [Trace, Debug, Info, Warn, Error]

  /** The level does not come before the minimum in that order. */
  ghost predicate AtOrBehind(level: Level, minimum: Level) {
    exists i, j :: 0 <= i <= j < |LEVELS| && LEVELS[i] == minimum && LEVELS[j] == level
  }

  lemma FilterIsOrder(level: Level, minimum: Level)
    ensures ShouldLog(level, minimum) <==> AtOrBehind(level, minimum)
  {
    var i, j := Rank(minimum), Rank(level);
    assert LEVELS[i] == minimum && LEVELS[j] == level;
  }

  function LevelName(level: Level): string {
    match level
    case Trace => "trace" case Debug => "debug" case Info => "info" case Warn => "warn" case Error => "error"
  }

  function ParseLevel(text: string): Option<Level> {
    if text == "trace" then Some(Trace)
    else if text == "debug" then Some(Debug)
    else if text == "info" then Some(Info)
    else if text == "warn" then Some(Warn)
    else if text == "error" then Some(Error)
    else None
  }

  function SummaryEvent(dropped: UInt64, tsMs: UInt64): LogEvent {
    LogEvent(tsMs, Warn, "logging", "dropped_logs", [Entry("dropped", Unsigned(dropped))], "", false)
  }

  // ---------------------------------------------------------------- the tree an event denotes

  function ValueTree(value: FieldValue): Json {
    match value
    case Text(text) => JString(text)
    case Signed(n) => JInt(n)
    case Unsigned(n) => JInt(n)
    case Double(rendered) => JDecimal(rendered)
    case Flag(flag) => JBool(flag)
    case TextList(texts) => JArray(StringItems(texts))
  }

  function EntryMembers(entries: seq<Entry>): (members: seq<Member>)
    ensures |members| == |entries|
    ensures forall i :: 0 <= i < |entries| ==> members[i] == Member(entries[i].key, ValueTree(entries[i].value))
  {
    seq(|entries|, i requires 0 <= i < |entries| => Member(entries[i].key, ValueTree(entries[i].value)))
  }

  function HeadMembers(e: LogEvent): seq<Member> {
    [Member("ts_ms", JInt(e.tsMs)), Member("level", JString(LevelName(e.level))),
     Member("component", JString(e.component)), Member("msg", JString(e.message))]
  }

  function FieldsMember(e: LogEvent): seq<Member> {
    if e.fields == [] then [] else [Member("fields", JObject(EntryMembers(e.fields)))]
  }

  function RawMember(e: LogEvent): seq<Member> {
    if e.includeRaw then [Member("raw", JString(e.raw))] else []
  }

  function EventTree(e: LogEvent): Json {
    JObject(HeadMembers(e) + FieldsMember(e) + RawMember(e))
  }

  /** Every double among the fields is finite: its text is digits, a point and digits. */
  predicate FiniteDoubles(e: LogEvent) {
    forall i :: 0 <= i < |e.fields| && e.fields[i].value.Double? ==> IsFixed(e.fields[i].value.rendered)
  }

  /** The line of an event: its tree in compact form, ended by a newline. */
  function LineText(e: LogEvent): string { Print(EventTree(e)) + "\n" }

  // ---------------------------------------------------------------- printing it in place

  lemma EscapeSnoc(text: string, i: nat)
    requires i < |text|
    ensures Escape(text[..i + 1]) == Escape(text[..i]) + EscapeChar(text[i])
  {
    EscapeConcat(text[..i], [text[i]]);
    assert text[..i + 1] == text[..i] + [text[i]];
    var one := [text[i]];
    assert one[0] == text[i] && one[1..] == "";
    assert Escape(one) == EscapeChar(text[i]) + Escape("");
  }

  method AppendJsonString(out: string, text: string) returns (longer: string)
    ensures longer == out + Escape(text)
  {
    longer := out;
    for i := 0 to |text|
      invariant longer == out + Escape(text[..i])
    {
      var c := text[i];
      EscapeSnoc(text, i);
      longer := longer + (
        match c
        case '\\' => "\\\\"
        case '"' => "\\\""
        case '\n' => "\\n"
        case '\r' => "\\r"
        case '\t' => "\\t"
        case _ =>
          if c == BACKSPACE then "\\b"
          else if c == FORMFEED then "\\f"
          else if c < ' ' then "\\u00" + [HexDigit(c as int / 16), HexDigit(c as int % 16)]
          else [c]);
    }
    assert text[..|text|] == text;
  }

  method AppendQuoted(out: string, text: string) returns (longer: string)
    ensures longer == out + Quote(text)
  {
    longer := AppendJsonString(out + "\"", text);
    longer := longer + "\"";
  }

  /** A list grown by its next element. */
  lemma StringItemsSnoc(texts: seq<string>, i: nat)
    requires i < |texts|
    ensures StringItems(texts[..i + 1]) == StringItems(texts[..i]) + [JString(texts[i])]
  {
  }

  lemma EntryMembersSnoc(entries: seq<Entry>, i: nat)
    requires i < |entries|
    ensures EntryMembers(entries[..i + 1]) ==
            EntryMembers(entries[..i]) + [Member(entries[i].key, ValueTree(entries[i].value))]
  {
  }

  method AppendTextList(out: string, texts: seq<string>) returns (longer: string)
    ensures longer == out + Print(JArray(StringItems(texts)))
  {
    longer := out + "[";
    for i := 0 to |texts|
      invariant longer == out + "[" + PrintItems(StringItems(texts[..i]))
    {
      StringItemsSnoc(texts, i);
      ghost var done := StringItems(texts[..i]);
      if i > 0 {
        longer := longer + ",";
        PrintItemsSnoc(done, JString(texts[i]));
      }
      longer := AppendQuoted(longer, texts[i]);
      if i == 0 {
        assert done + [JString(texts[i])] == [JString(texts[i])];
      }
    }
    assert texts[..|texts|] == texts;
    longer := longer + "]";
  }

  method AppendFieldValue(out: string, value: FieldValue) returns (longer: string)
    ensures longer == out + Print(ValueTree(value))
  {
    match value
    case Text(text) => longer := AppendQuoted(out, text);
    case Signed(n) => longer := out + IntText(n);
    case Unsigned(n) => longer := out + IntText(n);
    case Double(rendered) => longer := out + rendered;
    case Flag(flag) => longer := out + if flag then "true" else "false";
    case TextList(texts) => longer := AppendTextList(out, texts);
  }

  method AppendFields(out: string, entries: seq<Entry>) returns (longer: string)
    ensures longer == out + PrintMembers(EntryMembers(entries))
  {
    longer := out;
    for i := 0 to |entries|
      invariant longer == out + PrintMembers(EntryMembers(entries[..i]))
    {
      EntryMembersSnoc(entries, i);
      ghost var done := EntryMembers(entries[..i]);
      ghost var next := Member(entries[i].key, ValueTree(entries[i].value));
      if i > 0 {
        longer := longer + ",";
        PrintMembersSnoc(done, next);
      }
      longer := AppendQuoted(longer, entries[i].key);
      longer := AppendFieldValue(longer + ":", entries[i].value);
      if i == 0 {
        assert done + [next] == [next];
      }
    }
    assert entries[..|entries|] == entries;
  }

  lemma KeyText(key: string, value: Json)
    requires Plain(key)
    ensures "\"" + key + "\":" + Print(value) == PrintMember(Member(key, value))
  {
    EscapePlain(key);
    assert "\"" + key + "\":" == Quote(key) + ":";
    Assoc(Quote(key), ":", Print(value));
  }

  /** Writes the comma, the key and the colon of a further member; the key needs no escape. */
  method AppendKey(out: string, key: string, ghost members: seq<Member>, ghost value: Json) returns (longer: string)
    requires Plain(key) && members != [] && out == "{" + PrintMembers(members)
    ensures longer + Print(value) == "{" + PrintMembers(members + [Member(key, value)])
  {
    ghost var m := Member(key, value);
    var keyText := "\"" + key + "\":";
    longer := out + ("," + keyText);
    KeyText(key, value);
    PrintMembersSnoc(members, m);
    Assoc(out, "," + keyText, Print(value));
    Assoc(",", keyText, Print(value));
    Assoc("{", PrintMembers(members), "," + PrintMember(m));
  }

  /** One more member holding a string. */
  method AppendTextMember(out: string, key: string, text: string, ghost members: seq<Member>)
    returns (longer: string)
    requires Plain(key) && members != [] && out == "{" + PrintMembers(members)
    ensures longer == "{" + PrintMembers(members + [Member(key, JString(text))])
  {
    longer := AppendKey(out, key, members, JString(text));
    longer := AppendQuoted(longer, text);
  }

  lemma TsText(e: LogEvent)
    ensures "{\"ts_ms\":" + IntText(e.tsMs) == "{" + PrintMembers([HeadMembers(e)[0]])
  {
    KeyText("ts_ms", JInt(e.tsMs));
    assert "{\"ts_ms\":" == "{" + ("\"" + "ts_ms" + "\":");
    Assoc("{", "\"" + "ts_ms" + "\":", IntText(e.tsMs));
  }

  /** write_event up to the point where the line goes to the stream. */
  method BuildLine(event: LogEvent) returns (line: string)
    ensures line == LineText(event)
  {
    line := AppendHead(event);
    ghost var head := HeadMembers(event);
    if event.fields != [] {
      line := AppendFieldsMember(line, event.fields, head);
    }
    assert head + [] == head;
    ghost var members := head + FieldsMember(event);
    if event.includeRaw {
      line := AppendTextMember(line, "raw", event.raw, members);
    }
    assert members + [] == members;
    line := line + "}\n";
    Assoc("{" + PrintMembers(members + RawMember(event)), "}", "\n");
    Assoc("{", PrintMembers(members + RawMember(event)), "}");
  }

  method AppendFieldsMember(out: string, fields: seq<Entry>, ghost members: seq<Member>) returns (line: string)
    requires members != [] && out == "{" + PrintMembers(members)
    ensures line == "{" + PrintMembers(members + [Member("fields", JObject(EntryMembers(fields)))])
  {
    line := AppendKey(out, "fields", members, JObject(EntryMembers(fields)));
    ghost var before := line;
    line := AppendFields(line + "{", fields);
    line := line + "}";
    Assoc(before, "{", PrintMembers(EntryMembers(fields)));
    Assoc(before, "{" + PrintMembers(EntryMembers(fields)), "}");
    Assoc("{", PrintMembers(EntryMembers(fields)), "}");
  }

  method AppendHead(event: LogEvent) returns (line: string)
    ensures line == "{" + PrintMembers(HeadMembers(event))
  {
    ghost var m := HeadMembers(event);
    TsText(event);
    line := "{\"ts_ms\":" + IntText(event.tsMs);
    line := AppendTextMember(line, "level", LevelName(event.level), [m[0]]);
    line := AppendTextMember(line, "component", event.component, [m[0]] + [m[1]]);
    line := AppendTextMember(line, "msg", event.message, [m[0]] + [m[1]] + [m[2]]);
    assert m == [m[0]] + [m[1]] + [m[2]] + [m[3]];
  }

  // ---------------------------------------------------------------- reading it back

  lemma EventTreePrintable(e: LogEvent)
    requires FiniteDoubles(e)
    ensures Printable(EventTree(e))
  {
    var fields := EntryMembers(e.fields);
    forall i | 0 <= i < |fields|
      ensures Printable(fields[i].value)
    {
      assert fields[i].value == ValueTree(e.fields[i].value);
    }
    assert Printable(JObject(fields));
  }

  /** The line parses to exactly the event's tree and only the newline is left over. */
  lemma LineRoundTrip(e: LogEvent, rest: string)
    requires FiniteDoubles(e)
    ensures ParseValue(LineText(e) + rest) == Parsed(EventTree(e), "\n" + rest)
  {
    EventTreePrintable(e);
    PrintParses(EventTree(e), "\n" + rest);
    assert LineText(e) + rest == Print(EventTree(e)) + ("\n" + rest);
  }

  /** A line has one newline, at its end. */
  lemma LineFraming(e: LogEvent)
    requires FiniteDoubles(e)
    ensures var line := LineText(e);
            line[|line| - 1] == '\n' && forall i :: 0 <= i < |line| - 1 ==> line[i] >= ' '
  {
    EventTreePrintable(e);
    PrintNoControl(EventTree(e));
  }

  function Concat(lines: seq<string>): string {
    if lines == [] then "" else lines[0] + Concat(lines[1..])
  }

  function IndexOfNewline(s: string): (k: nat)
    ensures k <= |s|
    ensures k < |s| ==> s[k] == '\n'
    ensures forall i :: 0 <= i < k ==> s[i] != '\n'
  {
    if s == "" || s[0] == '\n' then 0 else 1 + IndexOfNewline(s[1..])
  }

  /** Splits a log file after each newline. */
  function SplitLines(s: string): seq<string>
    decreases |s|
  {
    var k := IndexOfNewline(s);
    if k == |s| then (if s == "" then [] else [s])
    else [s[..k + 1]] + SplitLines(s[k + 1..])
  }

  function Lines(events: seq<LogEvent>): (lines: seq<string>)
    ensures |lines| == |events|
    ensures forall i :: 0 <= i < |events| ==> lines[i] == LineText(events[i])
  {
    seq(|events|, i requires 0 <= i < |events| => LineText(events[i]))
  }

  /** The whole log text of a sequence of events. */
  function LogText(events: seq<LogEvent>): string { Concat(Lines(events)) }

  /** Each line of a log file parsed as one document followed by its newline. */
  function ReadLog(s: string): seq<Option<Json>> {
    var lines := SplitLines(s);
    seq(|lines|, i requires 0 <= i < |lines| => ReadLine(lines[i]))
  }

  function ReadLine(line: string): Option<Json> {
    var r := ParseValue(line);
    if r.Parsed? && r.rest == "\n" then Some(r.value) else None
  }

  lemma {:induction false} ConcatSnoc(lines: seq<string>, last: string)
    ensures Concat(lines + [last]) == Concat(lines) + last
  {
    if lines == [] {
      assert lines + [last] == [last];
      assert last + "" == last;
    } else {
      assert (lines + [last])[1..] == lines[1..] + [last];
      ConcatSnoc(lines[1..], last);
    }
  }

  lemma LogTextSnoc(events: seq<LogEvent>, last: LogEvent)
    ensures LogText(events + [last]) == LogText(events) + LineText(last)
  {
    assert Lines(events + [last]) == Lines(events) + [LineText(last)];
    ConcatSnoc(Lines(events), LineText(last));
  }

  lemma NewlineFound(s: string, k: nat)
    requires k < |s| && s[k] == '\n' && forall i :: 0 <= i < k ==> s[i] != '\n'
    ensures IndexOfNewline(s) == k
  {
  }

  /** A line ended by its only newline is split off whole. */
  lemma LineSplitsOff(line: string, rest: string)
    requires line != "" && line[|line| - 1] == '\n' && forall i :: 0 <= i < |line| - 1 ==> line[i] != '\n'
    ensures SplitLines(line + rest) == [line] + SplitLines(rest)
  {
    var s := line + rest;
    assert s[|line| - 1] == '\n' && forall i :: 0 <= i < |line| - 1 ==> s[i] == line[i];
    NewlineFound(s, |line| - 1);
    assert s[..|line|] == line && s[|line|..] == rest;
  }

  lemma {:induction false} SplitInvertsConcat(events: seq<LogEvent>)
    requires forall i :: 0 <= i < |events| ==> FiniteDoubles(events[i])
    ensures SplitLines(LogText(events)) == Lines(events)
  {
    if events != [] {
      LineFraming(events[0]);
      assert Lines(events) == [LineText(events[0])] + Lines(events[1..]);
      LineSplitsOff(LineText(events[0]), LogText(events[1..]));
      SplitInvertsConcat(events[1..]);
    }
  }

  /** Reading the whole log back gives the trees of the events, one a line, in order. */
  lemma LogRoundTrip(events: seq<LogEvent>)
    requires forall i :: 0 <= i < |events| ==> FiniteDoubles(events[i])
    ensures |ReadLog(LogText(events))| == |events|
    ensures forall i :: 0 <= i < |events| ==> ReadLog(LogText(events))[i] == Some(EventTree(events[i]))
  {
    SplitInvertsConcat(events);
    forall i | 0 <= i < |events|
      ensures ReadLine(LineText(events[i])) == Some(EventTree(events[i]))
    {
      LineRoundTrip(events[i], "");
      assert LineText(events[i]) + "" == LineText(events[i]) && "\n" + "" == "\n";
    }
  }
}
