/** Loading of the configuration, and what every accepted one guarantees to the other parts. */
module Config {
  import opened Prelude
  import opened JsonTree
  import opened LogLine
  import LoggerSteps

  datatype ConfigError = FileOpenFailed | ParseFailed

  datatype SubscriptionConfig = SubscriptionConfig(channels: seq<string>, tickers: seq<string>)

  datatype WsConfig = WsConfig(
    handshakeTimeoutMs: Int64, idleTimeoutMs: Int64, keepAlivePings: bool, autoReconnect: bool,
    reconnectInitialDelayMs: Int64, reconnectMaxDelayMs: Int64)

  datatype LoggingConfig = LoggingConfig(
    level: string, queueSize: UInt64, dropPolicy: string, includeRawOnParseError: bool,
    logRawMessages: bool, outputPath: string)

  datatype Config = Config(
    env: string, wsUrl: string, subscription: SubscriptionConfig, ws: WsConfig, logging: LoggingConfig,
    rawMessagesPath: string)

  const DEFAULT_WS := WsConfig(30000, 60000, true, true, 500, 30000)

  const DEFAULT_LOGGING := LoggingConfig("info", 10000, "drop_oldest", true, false, "logs/kalshi.log.json")

  const DEFAULT_RAW_PATH := "logs/ws_messages.json"

  // ---------------------------------------------------------------- scalar getters

  /** static_cast<std::int64_t> of a 64-bit unsigned value. */
  function ToInt64(x: UInt64): Int64 { if x <= INT64_MAX then x else x - TWO_64 }

  function GetString(obj: seq<Member>, key: string): Option<string> {
    match Find(obj, key)
    case Some(JString(text)) => Some(text)
    case _ => None
  }

  /** A member that may be absent: None is an error, Some(None) an absent member. */
  function GetOptionalString(obj: seq<Member>, key: string): Option<Option<string>> {
    match Find(obj, key)
    case None => Some(None)
    case Some(JString(text)) => Some(Some(text))
    case Some(_) => None
  }

  function GetOptionalSize(obj: seq<Member>, key: string): Option<Option<UInt64>> {
    match Find(obj, key)
    case None => Some(None)
    case Some(value) => if value.JInt? && IsUInt64(value.number) then Some(Some(value.number)) else None
  }

  function GetOptionalBool(obj: seq<Member>, key: string): Option<Option<bool>> {
    match Find(obj, key)
    case None => Some(None)
    case Some(JBool(flag)) => Some(Some(flag))
    case Some(_) => None
  }

  ghost predicate StringsAt(obj: seq<Member>, key: string) {
    match Find(obj, key)
    case Some(JArray(items)) => forall i :: 0 <= i < |items| ==> items[i].JString?
    case _ => false
  }

  method GetStringArray(obj: seq<Member>, key: string) returns (r: Option<seq<string>>)
    ensures r.Some? <==> StringsAt(obj, key)
    ensures r.Some? ==> Find(obj, key) == Some(JArray(StringItems(r.value)))
  {
    var field := Find(obj, key);
    if field.None? || !field.value.JArray? {
      return None;
    }
    var items := field.value.items;
    var out: seq<string> := [];
    for i := 0 to |items|
      invariant items[..i] == StringItems(out)
    {
      if !items[i].JString? {
        return None;
      }
      out := out + [items[i].text];
      assert items[..i + 1] == items[..i] + [items[i]];
      assert StringItems(out) == StringItems(out[..i]) + [JString(out[i])];
    }
    assert items[..|items|] == items;
    r := Some(out);
  }

  // ---------------------------------------------------------------- sections

  // what a section says, key by key; base is what holds for a key that is absent

  predicate SizeIs(section: seq<Member>, key: string, size: int, base: int) {
    match Find(section, key)
    case None => size == base
    case Some(value) => value == JInt(size)
  }

  predicate FlagIs(section: seq<Member>, key: string, flag: bool, base: bool) {
    match Find(section, key)
    case None => flag == base
    case Some(value) => value == JBool(flag)
  }

  predicate TextIs(section: seq<Member>, key: string, text: string, base: string) {
    match Find(section, key)
    case None => text == base
    case Some(value) => value == JString(text)
  }

  predicate WsSays(ws: seq<Member>, c: WsConfig, base: WsConfig) {
    && SizeIs(ws, "handshake_timeout_ms", c.handshakeTimeoutMs, base.handshakeTimeoutMs)
    && SizeIs(ws, "idle_timeout_ms", c.idleTimeoutMs, base.idleTimeoutMs)
    && FlagIs(ws, "keep_alive_pings", c.keepAlivePings, base.keepAlivePings)
    && FlagIs(ws, "auto_reconnect", c.autoReconnect, base.autoReconnect)
    && SizeIs(ws, "reconnect_initial_delay_ms", c.reconnectInitialDelayMs, base.reconnectInitialDelayMs)
    && SizeIs(ws, "reconnect_max_delay_ms", c.reconnectMaxDelayMs, base.reconnectMaxDelayMs)
  }

  predicate LoggingSays(log: seq<Member>, c: LoggingConfig, base: LoggingConfig) {
    && TextIs(log, "level", c.level, base.level)
    && SizeIs(log, "queue_size", c.queueSize, base.queueSize)
    && TextIs(log, "drop_policy", c.dropPolicy, base.dropPolicy)
    && FlagIs(log, "include_raw_on_parse_error", c.includeRawOnParseError, base.includeRawOnParseError)
    && FlagIs(log, "log_raw_messages", c.logRawMessages, base.logRawMessages)
    && TextIs(log, "output_path", c.outputPath, base.outputPath)
  }

  // and what it may say

  predicate SizeFine(section: seq<Member>, key: string, low: int, high: int) {
    match Find(section, key)
    case None => true
    case Some(value) => value.JInt? && low <= value.number <= high
  }

  predicate FlagFine(section: seq<Member>, key: string) {
    match Find(section, key)
    case None => true
    case Some(value) => value.JBool?
  }

  predicate TextFine(section: seq<Member>, key: string, among: set<string>) {
    match Find(section, key)
    case None => true
    case Some(value) => value.JString? && value.text in among
  }

  /** The number given, or what holds without it. */
  function SizeOr(section: seq<Member>, key: string, base: int): int {
    match Find(section, key)
    case Some(JInt(size)) => size
    case _ => base
  }

  predicate WsFine(section: Json, base: WsConfig) {
    && section.JObject?
    && var ws := section.members;
       && SizeFine(ws, "handshake_timeout_ms", 0, 0x7FFF_FFFF_FFFF_FFFF)
       && SizeFine(ws, "idle_timeout_ms", 0, 0x7FFF_FFFF_FFFF_FFFF)
       && FlagFine(ws, "keep_alive_pings") && FlagFine(ws, "auto_reconnect")
       && SizeFine(ws, "reconnect_initial_delay_ms", 0, 0x7FFF_FFFF_FFFF_FFFF)
       && SizeFine(ws, "reconnect_max_delay_ms", 0, 0x7FFF_FFFF_FFFF_FFFF)
       && SizeOr(ws, "handshake_timeout_ms", base.handshakeTimeoutMs) >= 0
       && SizeOr(ws, "idle_timeout_ms", base.idleTimeoutMs) >= 0
       && 0 <= SizeOr(ws, "reconnect_initial_delay_ms", base.reconnectInitialDelayMs)
            <= SizeOr(ws, "reconnect_max_delay_ms", base.reconnectMaxDelayMs)
  }

  predicate LoggingFine(section: Json) {
    && section.JObject?
    && var log := section.members;
       && TextFine(log, "level", {"trace", "debug", "info", "warn", "error"})
       && SizeFine(log, "queue_size", 1, 0xFFFF_FFFF_FFFF_FFFF)
       && TextFine(log, "drop_policy", {"drop_oldest", "drop_newest"})
       && FlagFine(log, "include_raw_on_parse_error") && FlagFine(log, "log_raw_messages")
       && (match Find(log, "output_path")
           case None => true
           case Some(value) => value.JString? && value.text != "")
  }

  // reading and merging

  function OrElse<T>(given: Option<T>, base: T): T { if given.Some? then given.value else base }

  datatype WsFields = WsFields(
    handshakeTimeoutMs: Option<UInt64>, idleTimeoutMs: Option<UInt64>, keepAlivePings: Option<bool>,
    autoReconnect: Option<bool>, reconnectInitialDelayMs: Option<UInt64>, reconnectMaxDelayMs: Option<UInt64>)

  /** The section's members, if it is an object and each is absent or of its type. */
  function ReadWs(section: Json): Option<WsFields> {
    if !section.JObject? then None
    else
      var ws := section.members;
      var handshake := GetOptionalSize(ws, "handshake_timeout_ms");
      var idle := GetOptionalSize(ws, "idle_timeout_ms");
      var pings := GetOptionalBool(ws, "keep_alive_pings");
      var reconnect := GetOptionalBool(ws, "auto_reconnect");
      var initial := GetOptionalSize(ws, "reconnect_initial_delay_ms");
      var max := GetOptionalSize(ws, "reconnect_max_delay_ms");
      if handshake.None? || idle.None? || pings.None? || reconnect.None? || initial.None? || max.None? then None
      else Some(WsFields(handshake.value, idle.value, pings.value, reconnect.value, initial.value, max.value))
  }

  /** A size after merging, as the number written and before any cast. */
  function Effective(given: Option<UInt64>, base: Int64): int { if given.Some? then given.value else base }

  predicate ValidWs(c: WsConfig) {
    && c.handshakeTimeoutMs >= 0 && c.idleTimeoutMs >= 0
    && 0 <= c.reconnectInitialDelayMs <= c.reconnectMaxDelayMs
  }

  /** The merged sizes lie in 0..2^63-1 and the initial delay is at most the maximal one. */
  predicate WsAcceptable(f: WsFields, base: WsConfig) {
    && 0 <= Effective(f.handshakeTimeoutMs, base.handshakeTimeoutMs) <= INT64_MAX
    && 0 <= Effective(f.idleTimeoutMs, base.idleTimeoutMs) <= INT64_MAX
    && 0 <= Effective(f.reconnectInitialDelayMs, base.reconnectInitialDelayMs)
         <= Effective(f.reconnectMaxDelayMs, base.reconnectMaxDelayMs) <= INT64_MAX
  }

  function WsOver(f: WsFields, base: WsConfig): WsConfig
    requires WsAcceptable(f, base)
  {
    WsConfig(Effective(f.handshakeTimeoutMs, base.handshakeTimeoutMs),
             Effective(f.idleTimeoutMs, base.idleTimeoutMs),
             OrElse(f.keepAlivePings, base.keepAlivePings),
             OrElse(f.autoReconnect, base.autoReconnect),
             Effective(f.reconnectInitialDelayMs, base.reconnectInitialDelayMs),
             Effective(f.reconnectMaxDelayMs, base.reconnectMaxDelayMs))
  }

  /** What a given size leaves in an int64 field. */
  function Stored(given: Option<UInt64>, base: Int64): Int64 { if given.Some? then ToInt64(given.value) else base }

  lemma StoredFits(given: Option<UInt64>, base: Int64)
    ensures Stored(given, base) >= 0 <==> 0 <= Effective(given, base) <= INT64_MAX
    ensures Stored(given, base) >= 0 ==> Stored(given, base) == Effective(given, base)
  {
  }

  method OverwriteWs(f: WsFields, base: WsConfig) returns (c: WsConfig)
    ensures c == WsConfig(Stored(f.handshakeTimeoutMs, base.handshakeTimeoutMs),
                          Stored(f.idleTimeoutMs, base.idleTimeoutMs),
                          OrElse(f.keepAlivePings, base.keepAlivePings),
                          OrElse(f.autoReconnect, base.autoReconnect),
                          Stored(f.reconnectInitialDelayMs, base.reconnectInitialDelayMs),
                          Stored(f.reconnectMaxDelayMs, base.reconnectMaxDelayMs))
  {
    c := base;
    if f.handshakeTimeoutMs.Some? {
      c := c.(handshakeTimeoutMs := ToInt64(f.handshakeTimeoutMs.value));
    }
    if f.idleTimeoutMs.Some? {
      c := c.(idleTimeoutMs := ToInt64(f.idleTimeoutMs.value));
    }
    if f.keepAlivePings.Some? {
      c := c.(keepAlivePings := f.keepAlivePings.value);
    }
    if f.autoReconnect.Some? {
      c := c.(autoReconnect := f.autoReconnect.value);
    }
    if f.reconnectInitialDelayMs.Some? {
      c := c.(reconnectInitialDelayMs := ToInt64(f.reconnectInitialDelayMs.value));
    }
    if f.reconnectMaxDelayMs.Some? {
      c := c.(reconnectMaxDelayMs := ToInt64(f.reconnectMaxDelayMs.value));
    }
  }

  /** The members read and merged are acceptable exactly when the section is fine, and say what it says. */
  lemma WsFineIff(section: Json, base: WsConfig)
    ensures WsFine(section, base) <==> ReadWs(section).Some? && WsAcceptable(ReadWs(section).value, base)
    ensures WsFine(section, base) ==> WsSays(section.members, WsOver(ReadWs(section).value, base), base)
  {
  }

  /**
   * parse_ws: exact. The cast to int64 makes values above INT64_MAX negative, and the
   * later check refuses those, so no size is ever truncated.
   */
  method ParseWs(section: Json, base: WsConfig) returns (r: Result<WsConfig, ConfigError>)
    ensures r.Ok? <==> WsFine(section, base)
    ensures r.Ok? ==> WsSays(section.members, r.value, base) && ValidWs(r.value)
  {
    WsFineIff(section, base);
    var fields := ReadWs(section);
    if fields.None? {
      return Err(ParseFailed);
    }
    var f := fields.value;
    var c := OverwriteWs(f, base);
    StoredFits(f.handshakeTimeoutMs, base.handshakeTimeoutMs);
    StoredFits(f.idleTimeoutMs, base.idleTimeoutMs);
    StoredFits(f.reconnectInitialDelayMs, base.reconnectInitialDelayMs);
    StoredFits(f.reconnectMaxDelayMs, base.reconnectMaxDelayMs);
    if c.handshakeTimeoutMs < 0 || c.idleTimeoutMs < 0 ||
       c.reconnectInitialDelayMs < 0 || c.reconnectMaxDelayMs < 0 {
      return Err(ParseFailed);
    }
    if c.reconnectInitialDelayMs > c.reconnectMaxDelayMs {
      return Err(ParseFailed);
    }
    r := Ok(c);
  }

  function ParseDropPolicy(text: string): Option<LoggerSteps.Policy> {
    if text == "drop_oldest" then Some(LoggerSteps.DropOldest)
    else if text == "drop_newest" then Some(LoggerSteps.DropNewest)
    else None
  }

  /** What build_logger_options and the logger need. */
  predicate ValidLogging(c: LoggingConfig) {
    ParseLevel(c.level).Some? && ParseDropPolicy(c.dropPolicy).Some? && c.queueSize >= 1 && c.outputPath != ""
  }

  datatype LoggingFields = LoggingFields(
    level: Option<string>, queueSize: Option<UInt64>, dropPolicy: Option<string>,
    includeRawOnParseError: Option<bool>, logRawMessages: Option<bool>, outputPath: Option<string>)

  function ReadLogging(section: Json): Option<LoggingFields> {
    if !section.JObject? then None
    else
      var log := section.members;
      var level := GetOptionalString(log, "level");
      var queueSize := GetOptionalSize(log, "queue_size");
      var dropPolicy := GetOptionalString(log, "drop_policy");
      var includeRaw := GetOptionalBool(log, "include_raw_on_parse_error");
      var logRaw := GetOptionalBool(log, "log_raw_messages");
      var outputPath := GetOptionalString(log, "output_path");
      if level.None? || queueSize.None? || dropPolicy.None? || includeRaw.None? || logRaw.None? || outputPath.None?
      then None
      else Some(LoggingFields(level.value, queueSize.value, dropPolicy.value,
                              includeRaw.value, logRaw.value, outputPath.value))
  }

  function LoggingOver(f: LoggingFields, base: LoggingConfig): LoggingConfig {
    LoggingConfig(OrElse(f.level, base.level), OrElse(f.queueSize, base.queueSize),
                  OrElse(f.dropPolicy, base.dropPolicy), OrElse(f.includeRawOnParseError, base.includeRawOnParseError),
                  OrElse(f.logRawMessages, base.logRawMessages), OrElse(f.outputPath, base.outputPath))
  }

  lemma LoggingFineIff(section: Json, base: LoggingConfig)
    requires ValidLogging(base)
    ensures LoggingFine(section) <==>
            ReadLogging(section).Some? && ValidLogging(LoggingOver(ReadLogging(section).value, base))
    ensures LoggingFine(section) ==> LoggingSays(section.members, LoggingOver(ReadLogging(section).value, base), base)
  {
    if section.JObject? {
      var level, policy := GetString(section.members, "level"), GetString(section.members, "drop_policy");
      KnownNames(OrElse(level, ""), OrElse(policy, ""));
    }
  }

  /** parse_logging over a valid base: accepted exactly when every key given is fine. */
  method ParseLogging(section: Json, base: LoggingConfig) returns (r: Result<LoggingConfig, ConfigError>)
    requires ValidLogging(base)
    ensures r.Ok? <==> LoggingFine(section)
    ensures r.Ok? ==> LoggingSays(section.members, r.value, base) && ValidLogging(r.value)
  {
    LoggingFineIff(section, base);
    var fields := ReadLogging(section);
    if fields.None? {
      return Err(ParseFailed);
    }
    r := OverwriteLogging(fields.value, base);
  }

  /** The names parse_logging compares with. */
  predicate KnownLevel(text: string) {
    text == "trace" || text == "debug" || text == "info" || text == "warn" || text == "error"
  }

  predicate KnownPolicy(text: string) { text == "drop_oldest" || text == "drop_newest" }

  /** They are the names the logger's own parsers accept. */
  lemma KnownNames(level: string, policy: string)
    ensures KnownLevel(level) <==> ParseLevel(level).Some?
    ensures KnownPolicy(policy) <==> ParseDropPolicy(policy).Some?
  {
  }

  method OverwriteLogging(f: LoggingFields, base: LoggingConfig) returns (r: Result<LoggingConfig, ConfigError>)
    requires ValidLogging(base)
    ensures r.Ok? <==> ValidLogging(LoggingOver(f, base))
    ensures r.Ok? ==> r.value == LoggingOver(f, base)
  {
    KnownNames(OrElse(f.level, base.level), OrElse(f.dropPolicy, base.dropPolicy));
    KnownNames(base.level, base.dropPolicy);
    r := OverwriteQueue(f, base);
    if r.Ok? {
      r := OverwriteOutput(f, r.value);
    }
  }

  /** The members level, queue_size and drop_policy. */
  method OverwriteQueue(f: LoggingFields, base: LoggingConfig) returns (r: Result<LoggingConfig, ConfigError>)
    ensures r.Ok? <==>
              && (f.level.Some? ==> KnownLevel(f.level.value))
              && (f.queueSize.Some? ==> f.queueSize.value > 0)
              && (f.dropPolicy.Some? ==> KnownPolicy(f.dropPolicy.value))
    ensures r.Ok? ==>
              r.value == base.(level := OrElse(f.level, base.level), queueSize := OrElse(f.queueSize, base.queueSize),
                               dropPolicy := OrElse(f.dropPolicy, base.dropPolicy))
  {
    var c := base;
    if f.level.Some? {
      if !KnownLevel(f.level.value) {
        return Err(ParseFailed);
      }
      c := c.(level := f.level.value);
    }
    if f.queueSize.Some? {
      if f.queueSize.value == 0 {
        return Err(ParseFailed);
      }
      c := c.(queueSize := f.queueSize.value);
    }
    if f.dropPolicy.Some? {
      if !KnownPolicy(f.dropPolicy.value) {
        return Err(ParseFailed);
      }
      c := c.(dropPolicy := f.dropPolicy.value);
    }
    r := Ok(c);
  }

  /** The members include_raw_on_parse_error, log_raw_messages and output_path. */
  method OverwriteOutput(f: LoggingFields, base: LoggingConfig) returns (r: Result<LoggingConfig, ConfigError>)
    ensures r.Ok? <==> (f.outputPath.Some? ==> f.outputPath.value != "")
    ensures r.Ok? ==>
              r.value == base.(includeRawOnParseError := OrElse(f.includeRawOnParseError, base.includeRawOnParseError),
                               logRawMessages := OrElse(f.logRawMessages, base.logRawMessages),
                               outputPath := OrElse(f.outputPath, base.outputPath))
  {
    var c := base;
    if f.includeRawOnParseError.Some? {
      c := c.(includeRawOnParseError := f.includeRawOnParseError.value);
    }
    if f.logRawMessages.Some? {
      c := c.(logRawMessages := f.logRawMessages.value);
    }
    if f.outputPath.Some? {
      if f.outputPath.value == "" {
        return Err(ParseFailed);
      }
      c := c.(outputPath := f.outputPath.value);
    }
    r := Ok(c);
  }

  ghost predicate SubscriptionGiven(root: seq<Member>) {
    match Find(root, "subscription")
    case Some(JObject(sub)) =>
      StringsAt(sub, "channels") && Find(sub, "channels") != Some(JArray([])) && StringsAt(sub, "market_tickers")
    case _ => false
  }

  method ParseSubscription(root: seq<Member>) returns (r: Result<SubscriptionConfig, ConfigError>)
    ensures r.Ok? <==> SubscriptionGiven(root)
    ensures r.Ok? ==>
              var sub := Find(root, "subscription").value.members;
              && r.value.channels != []
              && Find(sub, "channels") == Some(JArray(StringItems(r.value.channels)))
              && Find(sub, "market_tickers") == Some(JArray(StringItems(r.value.tickers)))
  {
    var sub := Find(root, "subscription");
    if sub.None? || !sub.value.JObject? {
      return Err(ParseFailed);
    }
    var channels := GetStringArray(sub.value.members, "channels");
    if channels.None? || channels.value == [] {
      return Err(ParseFailed);
    }
    var tickers := GetStringArray(sub.value.members, "market_tickers");
    if tickers.None? {
      return Err(ParseFailed);
    }
    r := Ok(SubscriptionConfig(channels.value, tickers.value));
  }

  function ParseOutput(section: Json): Option<string> {
    if !section.JObject? then None
    else
      var path := GetString(section.members, "raw_messages_path");
      if path.None? || path.value == "" then None else path
  }

  predicate ValidConfig(c: Config) {
    && c.subscription.channels != [] && c.rawMessagesPath != ""
    && ValidWs(c.ws) && ValidLogging(c.logging)
  }

  /** The members of a section, none if it is absent. */
  function Section(root: seq<Member>, key: string): seq<Member> {
    match Find(root, key)
    case Some(JObject(members)) => members
    case _ => []
  }

  /** ws is absent or fine over the defaults. */
  predicate WsSectionFine(root: seq<Member>) {
    match Find(root, "ws")
    case None => true
    case Some(section) =>
      WsFine(section, WsConfig(handshakeTimeoutMs := 30000, idleTimeoutMs := 60000, keepAlivePings := true,
                               autoReconnect := true, reconnectInitialDelayMs := 500, reconnectMaxDelayMs := 30000))
  }

  predicate WsSectionSays(root: seq<Member>, c: WsConfig) {
    WsSays(Section(root, "ws"), c,
           WsConfig(handshakeTimeoutMs := 30000, idleTimeoutMs := 60000, keepAlivePings := true,
                    autoReconnect := true, reconnectInitialDelayMs := 500, reconnectMaxDelayMs := 30000))
  }

  predicate LoggingSectionFine(root: seq<Member>) {
    match Find(root, "logging")
    case None => true
    case Some(section) => LoggingFine(section)
  }

  predicate LoggingSectionSays(root: seq<Member>, c: LoggingConfig) {
    LoggingSays(Section(root, "logging"), c,
                LoggingConfig(level := "info", queueSize := 10000, dropPolicy := "drop_oldest",
                              includeRawOnParseError := true, logRawMessages := false,
                              outputPath := "logs/kalshi.log.json"))
  }

  predicate OutputSectionFine(root: seq<Member>) {
    match Find(root, "output")
    case None => true
    case Some(JObject(out)) =>
      (match Find(out, "raw_messages_path")
       case Some(JString(path)) => path != ""
       case _ => false)
    case Some(_) => false
  }

  predicate OutputSectionSays(root: seq<Member>, path: string) {
    TextIs(Section(root, "output"), "raw_messages_path", path, "logs/ws_messages.json")
  }

  method LoadWs(root: seq<Member>) returns (r: Result<WsConfig, ConfigError>)
    ensures r.Ok? <==> WsSectionFine(root)
    ensures r.Ok? ==> ValidWs(r.value) && WsSectionSays(root, r.value)
  {
    r := Ok(DEFAULT_WS);
    if Find(root, "ws").Some? {
      r := ParseWs(Find(root, "ws").value, DEFAULT_WS);
    }
  }

  method LoadLogging(root: seq<Member>) returns (r: Result<LoggingConfig, ConfigError>)
    ensures r.Ok? <==> LoggingSectionFine(root)
    ensures r.Ok? ==> ValidLogging(r.value) && LoggingSectionSays(root, r.value)
  {
    r := Ok(DEFAULT_LOGGING);
    if Find(root, "logging").Some? {
      r := ParseLogging(Find(root, "logging").value, DEFAULT_LOGGING);
    }
  }

  method LoadOutput(root: seq<Member>) returns (r: Option<string>)
    ensures r.Some? <==> OutputSectionFine(root)
    ensures r.Some? ==> r.value != "" && OutputSectionSays(root, r.value)
  {
    r := Some(DEFAULT_RAW_PATH);
    if Find(root, "output").Some? {
      r := ParseOutput(Find(root, "output").value);
    }
  }

  /** The document is an object with its required members, and every section in it is fine. */
  ghost predicate Acceptable(doc: Option<Json>) {
    doc.Some? && doc.value.JObject? &&
    var root := doc.value.members;
    && (match Find(root, "env")
        case Some(value) => value.JString?
        case None => false)
    && (match Find(root, "ws_url")
        case Some(value) => value.JString?
        case None => false)
    && SubscriptionGiven(root)
    && WsSectionFine(root) && LoggingSectionFine(root) && OutputSectionFine(root)
  }

  /** The configuration says what the document says, with the defaults where it says nothing. */
  ghost predicate Reflects(c: Config, root: seq<Member>) {
    && Find(root, "env") == Some(JString(c.env)) && Find(root, "ws_url") == Some(JString(c.wsUrl))
    && Find(Section(root, "subscription"), "channels") == Some(JArray(StringItems(c.subscription.channels)))
    && Find(Section(root, "subscription"), "market_tickers") == Some(JArray(StringItems(c.subscription.tickers)))
    && WsSectionSays(root, c.ws) && LoggingSectionSays(root, c.logging)
    && OutputSectionSays(root, c.rawMessagesPath)
  }

  /** load_config from the root of the document on; None when the text is no JSON. */
  method LoadConfig(doc: Option<Json>) returns (r: Result<Config, ConfigError>)
    ensures r.Ok? <==> Acceptable(doc)
    ensures r.Ok? ==> ValidConfig(r.value) && Reflects(r.value, doc.value.members)
  {
    if doc.None? || !doc.value.JObject? {
      return Err(ParseFailed);
    }
    var root := doc.value.members;
    var env := GetString(root, "env");
    var wsUrl := GetString(root, "ws_url");
    var subscription := ParseSubscription(root);

    var ws := LoadWs(root);
    if ws.Err? {
      return Err(ParseFailed);
    }
    var logging := LoadLogging(root);
    if logging.Err? {
      return Err(ParseFailed);
    }
    var output := LoadOutput(root);
    if output.None? {
      return Err(ParseFailed);
    }
    if env.None? || wsUrl.None? || subscription.Err? {
      return Err(ParseFailed);
    }
    r := Ok(Config(env.value, wsUrl.value, subscription.value, ws.value, logging.value, output.value));
  }

  // ---------------------------------------------------------------- the reconnect delays

  /** A section with the given reconnect delays and nothing else. */
  function DelaySection(initial: UInt64, max: UInt64): Json {
    JObject([Member("reconnect_initial_delay_ms", JInt(initial)), Member("reconnect_max_delay_ms", JInt(max))])
  }

  lemma DelaySectionReads(initial: UInt64, max: UInt64)
    ensures ReadWs(DelaySection(initial, max)) == Some(WsFields(None, None, None, None, Some(initial), Some(max)))
  {
    var ws := DelaySection(initial, max).members;
    FindFirst(ws, "handshake_timeout_ms", 2);
    FindFirst(ws, "idle_timeout_ms", 2);
    FindFirst(ws, "keep_alive_pings", 2);
    FindFirst(ws, "auto_reconnect", 2);
    FindFirst(ws, "reconnect_initial_delay_ms", 0);
    FindFirst(ws, "reconnect_max_delay_ms", 1);
  }

  /** A document with this URL and these delays, as short as load_config allows. */
  function ShortDocument(wsUrl: string, initial: UInt64, max: UInt64): Json {
    JObject([Member("env", JString("prod")), Member("ws_url", JString(wsUrl)),
             Member("subscription", JObject([Member("channels", JArray([JString("trade")])),
                                             Member("market_tickers", JArray([]))])),
             Member("ws", DelaySection(initial, max))])
  }

  lemma ShortDocumentFields(wsUrl: string, initial: UInt64, max: UInt64)
    ensures var root := ShortDocument(wsUrl, initial, max).members;
            && GetString(root, "env").Some? && GetString(root, "ws_url") == Some(wsUrl) && SubscriptionGiven(root)
            && Find(root, "ws") == Some(DelaySection(initial, max))
            && Find(root, "logging").None? && Find(root, "output").None?
  {
    var root := ShortDocument(wsUrl, initial, max).members;
    FindFirst(root, "env", 0);
    FindFirst(root, "ws_url", 1);
    FindFirst(root, "subscription", 2);
    FindFirst(root, "ws", 3);
    FindFirst(root, "logging", 4);
    FindFirst(root, "output", 4);
    var sub := root[2].value.members;
    FindFirst(sub, "channels", 0);
    FindFirst(sub, "market_tickers", 1);
    assert |[JString("trade")]| == 1;
  }

  /**
   * A document may give any delays with initial <= maximum <= 2^63-1, and any URL, and they
   * are taken over. Delays whose doubling leaves int64 are among them, and URLs that do not parse.
   */
  lemma DelaysAcceptedIff(wsUrl: string, initial: UInt64, max: UInt64, c: Config)
    ensures Acceptable(Some(ShortDocument(wsUrl, initial, max))) <==> initial <= max <= INT64_MAX
    ensures initial <= max <= INT64_MAX && Reflects(c, ShortDocument(wsUrl, initial, max).members) ==>
              c.wsUrl == wsUrl &&
              c.ws == DEFAULT_WS.(reconnectInitialDelayMs := initial, reconnectMaxDelayMs := max)
  {
    DelaySectionReads(initial, max);
    ShortDocumentFields(wsUrl, initial, max);
  }
}
