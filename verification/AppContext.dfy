/** What an accepted configuration makes of the logger and of the feed handler. */
module AppContext {
  import opened Prelude
  import opened LogLine
  import opened LineMeaning
  import opened Config
  import opened FeedSteps
  import opened FeedProofs
  import opened FeedRuns
  import opened WsUrl
  import Backoff
  import LoggerSteps

  datatype AppError = InvalidLogLevel | InvalidDropPolicy

  function BuildLoggerOptions(c: Config): Result<LoggerSteps.Params, AppError> {
    var level := ParseLevel(c.logging.level);
    if level.None? then Err(InvalidLogLevel)
    else
      var policy := ParseDropPolicy(c.logging.dropPolicy);
      if policy.None? then Err(InvalidDropPolicy)
      else Ok(LoggerSteps.Params(level.value, c.logging.queueSize, policy.value))
  }

  /** The handler's options; the application sets no message budget. */
  function BuildRunOptions(c: Config, subscribeCmd: string): Options {
    Options(c.wsUrl, subscribeCmd, c.logging.includeRawOnParseError, c.logging.logRawMessages, c.ws.autoReconnect,
            c.ws.reconnectInitialDelayMs, c.ws.reconnectMaxDelayMs, 0)
  }

  /** With an accepted configuration the logger's options cannot fail and leave room for one event. */
  lemma AcceptedConfigSuffices(c: Config)
    requires ValidConfig(c)
    ensures BuildLoggerOptions(c).Ok? && LoggerSteps.ValidParams(BuildLoggerOptions(c).value)
    ensures BuildLoggerOptions(c).value.capacity >= 1
  {
  }

  /** The logger gets the level and the policy that are named, and that much room. */
  lemma LoggerOptionsIff(c: Config, p: LoggerSteps.Params)
    ensures BuildLoggerOptions(c) == Ok(p) <==>
            && IsName(c.logging.level, p.level) && p.capacity == c.logging.queueSize
            && c.logging.dropPolicy == match p.policy
                                       case DropOldest => "drop_oldest"
                                       case DropNewest => "drop_newest"
  {
    LevelNames(p.level, c.logging.level);
  }

  /** The handler gets every option from the entry of that name. */
  lemma RunOptionsAsConfigured(c: Config, subscribeCmd: string)
    ensures BuildRunOptions(c, subscribeCmd) ==
            Options(wsUrl := c.wsUrl, subscribeCmd := subscribeCmd,
                    includeRawOnParseError := c.logging.includeRawOnParseError,
                    logRawMessages := c.logging.logRawMessages, autoReconnect := c.ws.autoReconnect,
                    initialDelay := c.ws.reconnectInitialDelayMs, maxDelay := c.ws.reconnectMaxDelayMs,
                    maxMessages := 0)
  {
  }

  /** The application stops exactly when something fails and it is configured not to reconnect. */
  lemma ApplicationStopsIff(c: Config, subscribeCmd: string, headers: Headers, trace: seq<Event>)
    requires Allowed(BuildRunOptions(c, subscribeCmd), Start(BuildRunOptions(c, subscribeCmd), headers), trace)
    ensures var o := BuildRunOptions(c, subscribeCmd);
            var s := Run(o, Start(o, headers), trace);
            s.stopped <==> !c.ws.autoReconnect && Failures(s.notes) > 0
  {
    MessageBudget(BuildRunOptions(c, subscribeCmd), headers, trace);
  }

  /**
   * With an accepted configuration that reconnects, the application never stops by itself
   * and always has work, and every delay lies between the two configured ones.
   */
  lemma AcceptedConfigRuns(c: Config, subscribeCmd: string, headers: Headers, trace: seq<Event>)
    requires ValidConfig(c) && c.ws.autoReconnect
    requires Allowed(BuildRunOptions(c, subscribeCmd), Start(BuildRunOptions(c, subscribeCmd), headers), trace)
    ensures var o := BuildRunOptions(c, subscribeCmd);
            var s := Run(o, Start(o, headers), trace);
            && !s.stopped && HasWork(s)
            && forall i :: 0 <= i < |s.notes| && s.notes[i].ReconnectScheduled? ==>
                 c.ws.reconnectInitialDelayMs <= s.notes[i].delay <= c.ws.reconnectMaxDelayMs
  {
    var o := BuildRunOptions(c, subscribeCmd);
    var within := (delay: int) => o.initialDelay <= delay <= o.maxDelay;
    NeverIdle(o, headers, trace);
    MessageBudget(o, headers, trace);
    forall k: nat
      ensures within(Backoff.Delay(o.initialDelay, o.maxDelay, k))
    {
      Backoff.DelaysRise(o.initialDelay, o.maxDelay, k, k);
    }
    DelaysGoodIff(o, headers, within);
    assert AllDelays(Run(o, Start(o, headers), trace).notes, within);
  }

  /**
   * Accepted documents for which 64 bits do not suffice in some run: 2^62 milliseconds
   * doubled on the way to the largest maximum, and, with a nanosecond clock, already a
   * maximum of 9223372036855 milliseconds.
   */
  lemma AcceptedDelaysOverflow(c: Config, subscribeCmd: string, headers: Headers)
    ensures var doc := ShortDocument("wss://host", 0x4000_0000_0000_0000, INT64_MAX);
            && Acceptable(Some(doc))
            && (Reflects(c, doc.members) ==>
                  !RunsGood(BuildRunOptions(c, subscribeCmd), headers, DoublingFits(INT64_MAX)))
    ensures var doc := ShortDocument("wss://host", 1, 9_223_372_036_855);
            && Acceptable(Some(doc))
            && (Reflects(c, doc.members) ==> !RunsGood(BuildRunOptions(c, subscribeCmd), headers, WaitFits()))
  {
    DelaysAcceptedIff("wss://host", 0x4000_0000_0000_0000, INT64_MAX, c);
    DelaysAcceptedIff("wss://host", 1, 9_223_372_036_855, c);
    var o := BuildRunOptions(c, subscribeCmd);
    if Reflects(c, ShortDocument("wss://host", 0x4000_0000_0000_0000, INT64_MAX).members) {
      DoublingFitsIff(o, headers);
    }
    if Reflects(c, ShortDocument("wss://host", 1, 9_223_372_036_855).members) {
      WaitsFitIff(o, headers);
    }
  }

  /** No run ever leads to a current client that reads. */
  ghost predicate NeverReads(o: Options, headers: Headers) {
    forall trace | Allowed(o, Start(o, headers), trace) :: !Reads(Run(o, Start(o, headers), trace))
  }

  /**
   * A document is accepted with any URL, but the application it configures ever reads if and
   * only if that URL parses.
   */
  lemma AcceptedUrlReadsIff(c: Config, wsUrl: string, subscribeCmd: string, headers: Headers)
    ensures Acceptable(Some(ShortDocument(wsUrl, 500, 30000)))
    ensures Reflects(c, ShortDocument(wsUrl, 500, 30000).members) ==>
              (NeverReads(BuildRunOptions(c, subscribeCmd), headers) <==> ParseWsUrl(wsUrl).Err?)
  {
    DelaysAcceptedIff(wsUrl, 500, 30000, c);
    var o := BuildRunOptions(c, subscribeCmd);
    var start := Start(o, headers);
    if Reflects(c, ShortDocument(wsUrl, 500, 30000).members) {
      if ParseWsUrl(wsUrl).Ok? {
        StartHolds(o, headers);
        var trace := WayBack(o, start);
        assert Allowed(o, start, trace) && Reads(Run(o, start, trace));
      } else {
        forall trace | Allowed(o, start, trace)
          ensures !Reads(Run(o, start, trace))
        {
          StartsNothing(o, headers);
          NoOperations(o, start, trace);
        }
      }
    }
  }

  lemma StartsNothing(o: Options, headers: Headers)
    requires ParseWsUrl(o.wsUrl).Err?
    ensures Start(o, headers).pending == multiset{}
  {
  }

  /** "http://host" is such a URL. */
  lemma PlainHttpNeverReads(c: Config, subscribeCmd: string, headers: Headers)
    ensures var doc := ShortDocument("http://host", 500, 30000);
            && Acceptable(Some(doc))
            && (Reflects(c, doc.members) ==> NeverReads(BuildRunOptions(c, subscribeCmd), headers))
  {
    assert "http://host"[0] == 'h' && WSS_PREFIX[0] == 'w';
    AcceptedUrlReadsIff(c, "http://host", subscribeCmd, headers);
  }
}
