/** What a log line says, key by key. */
module LineMeaning {
  import opened Prelude
  import opened JsonTree
  import opened JsonText
  import opened LogLine

  /** The names of the levels. */
  predicate IsName(text: string, level: Level) {
    match level
    case Trace => text == "trace"
    case Debug => text == "debug"
    case Info => text == "info"
    case Warn => text == "warn"
    case Error => text == "error"
  }

  /** Each level is written by its name, and read from that name and no other text. */
  lemma LevelNames(level: Level, text: string)
    ensures IsName(LevelName(level), level)
    ensures ParseLevel(text) == Some(level) <==> IsName(text, level)
  {
  }

  /** The value of a field in the line. */
  predicate ValueSays(j: Json, value: FieldValue) {
    match value
    case Text(text) => j == JString(text)
    case Signed(n) => j == JInt(n)
    case Unsigned(n) => j == JInt(n)
    case Double(rendered) => j == JDecimal(rendered)
    case Flag(flag) => j == JBool(flag)
    case TextList(texts) =>
      j.JArray? && |j.items| == |texts| && forall i :: 0 <= i < |texts| ==> j.items[i] == JString(texts[i])
  }

  /** The members that are always there. */
  predicate HeadSays(doc: Json, tsMs: int, level: Level, component: string, message: string) {
    && Field(doc, "ts_ms") == Some(JInt(tsMs))
    && (match Field(doc, "level")
        case Some(JString(text)) => IsName(text, level)
        case _ => false)
    && Field(doc, "component") == Some(JString(component)) && Field(doc, "msg") == Some(JString(message))
  }

  /** The fields, in order, under one key; no key without fields. */
  predicate FieldsSay(doc: Json, fields: seq<Entry>) {
    match Field(doc, "fields")
    case None => fields == []
    case Some(JObject(members)) =>
      && fields != [] && |members| == |fields|
      && forall i :: 0 <= i < |fields| ==>
           members[i].key == fields[i].key && ValueSays(members[i].value, fields[i].value)
    case Some(_) => false
  }

  predicate RawSays(doc: Json, e: LogEvent) {
    Field(doc, "raw") == if e.includeRaw then Some(JString(e.raw)) else None
  }

  /** All of it, and nothing besides. */
  predicate Says(doc: Json, e: LogEvent) {
    && HeadSays(doc, e.tsMs, e.level, e.component, e.message) && FieldsSay(doc, e.fields) && RawSays(doc, e)
    && doc.JObject? && |doc.members| == 4 + (if e.fields == [] then 0 else 1) + (if e.includeRaw then 1 else 0)
  }

  lemma TreeHeadSays(e: LogEvent)
    ensures HeadSays(EventTree(e), e.tsMs, e.level, e.component, e.message)
  {
    var members := EventTree(e).members;
    LevelNames(e.level, "");
    FindFirst(members, "ts_ms", 0);
    FindFirst(members, "level", 1);
    FindFirst(members, "component", 2);
    FindFirst(members, "msg", 3);
  }

  lemma TreeFieldsSay(e: LogEvent)
    ensures FieldsSay(EventTree(e), e.fields)
  {
    var members := EventTree(e).members;
    if e.fields != [] {
      FindFirst(members, "fields", 4);
    } else {
      FindFirst(members, "fields", |members|);
    }
  }

  lemma TreeRawSays(e: LogEvent)
    ensures RawSays(EventTree(e), e)
  {
    var members := EventTree(e).members;
    FindFirst(members, "raw", if e.includeRaw then |members| - 1 else |members|);
  }

  /** The tree of an event says what the event holds, under the keys the log documents. */
  lemma TreeSays(e: LogEvent)
    ensures Says(EventTree(e), e)
  {
    TreeHeadSays(e);
    TreeFieldsSay(e);
    TreeRawSays(e);
  }

  /** And so does the line, read back. */
  lemma LineSays(e: LogEvent)
    requires FiniteDoubles(e)
    ensures ReadLine(LineText(e)).Some? && Says(ReadLine(LineText(e)).value, e)
  {
    LineRoundTrip(e, "");
    assert LineText(e) + "" == LineText(e) && "\n" + "" == "\n";
    TreeSays(e);
  }

  /** A summary's line gives the time and the number of events dropped. */
  predicate SummarySays(doc: Json, count: int, tsMs: int) {
    && HeadSays(doc, tsMs, Warn, "logging", "dropped_logs")
    && match Field(doc, "fields")
       case Some(fields) => Field(fields, "dropped") == Some(JInt(count))
       case None => false
  }

  lemma SummaryTreeSays(count: UInt64, tsMs: UInt64)
    ensures SummarySays(EventTree(SummaryEvent(count, tsMs)), count, tsMs)
  {
    var e := SummaryEvent(count, tsMs);
    TreeSays(e);
    var fields := Field(EventTree(e), "fields").value;
    FindFirst(fields.members, "dropped", 0);
  }
}
