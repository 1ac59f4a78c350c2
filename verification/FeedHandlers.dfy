/**
 * The feed handler object. Its methods are the callbacks of the source on the fields of
 * RunState; the outstanding operations and waits of the event loop are fields beside them.
 */
module FeedHandlers {
  import opened Prelude
  import opened MarketEvents
  import opened MarketSinks
  import opened EventParser
  import opened WsUrl
  import opened FeedSteps
  import opened FeedProofs
  import opened FeedRuns
  import Backoff

  class FeedHandler {
    const options: Options
    const dispatcher: Dispatcher

    var remaining: nat
    var seen: nat
    var client: nat           // the current client, by number
    var backoff: int          // ReconnectState::current
    var headers: Headers
    var out: string
    var notes: seq<Note>

    // the event loop
    var pending: multiset<Pending>
    var waits: Waits
    var stopped: bool

    ghost var made: seq<SinkCall>  // the calls made on the sink
    ghost var history: FeedSteps.History
    ghost var trace: seq<Event>    // the events that led here
    ghost const startHeaders: Headers

    ghost function Model(): Feed
      reads this
    {
      Feed(remaining, seen, client, backoff, headers, pending, waits, stopped, out, notes, made, history)
    }

    /** The object is where its trace leads. */
    ghost predicate Valid()
      reads this
    {
      && Allowed(options, Start(options, startHeaders), trace)
      && Model() == Run(options, Start(options, startHeaders), trace)
    }

    /** Since the old state each sink received these calls, as often as it is listed. */
    twostate predicate SinksGot(calls: seq<SinkCall>)
      reads dispatcher.sink.sinks
    {
      forall s :: s in dispatcher.sink.sinks ==>
        s.calls == old(s.calls) + Spread(calls, Occurrences(dispatcher.sink.sinks, s))
    }

    /** init_state and the first connect. */
    constructor (options: Options, headers: Headers, sink: FanoutSink)
      ensures Valid() && this.options == options && dispatcher.sink == sink
      ensures Model() == Start(options, headers) && startHeaders == headers && trace == []
    {
      this.options := options;
      dispatcher := new Dispatcher(sink);
      remaining, seen, client, backoff := options.maxMessages, 0, 0, options.initialDelay;
      this.headers, startHeaders := headers, headers;
      out, notes := "", [];
      pending, waits, stopped := multiset{}, Waits(0, 0, 0), false;
      made, history, trace := [], History([], [], []), [];
      new;
      ConnectClient();
    }

    /** reconnect.next_delay(). */
    method NextDelay() returns (delay: int)
      modifies this`backoff
      ensures delay == old(backoff) && backoff == Backoff.Doubled(old(backoff), options.maxDelay)
    {
      delay := backoff;
      if backoff < options.maxDelay {
        backoff := if backoff * 2 < options.maxDelay then backoff * 2 else options.maxDelay;
      }
    }

    method Log(note: Note)
      modifies this`notes
      ensures notes == old(notes) + [note]
    {
      notes := notes + [note];
    }

    method ScheduleReconnect()
      modifies this`backoff, this`notes, this`waits
      ensures Model() == FeedSteps.ScheduleReconnect(options, old(Model()))
    {
      var delay := NextDelay();
      Log(ReconnectScheduled(delay));
      // expires_after cancels the wait that has not expired; async_wait adds one
      waits := Waits(1, waits.fired, waits.cancelled + waits.live);
    }

    method OnError(code: WsError)
      modifies this`backoff, this`notes, this`waits, this`stopped
      ensures Model() == FeedSteps.OnError(options, old(Model()), code)
    {
      Log(WsFailed(code));
      if !options.autoReconnect {
        stopped := true;
        return;
      }
      ScheduleReconnect();
    }

    /** connect_client, and WsClient::connect on the new client. */
    method ConnectClient()
      modifies this`client, this`pending, this`backoff, this`notes, this`waits, this`history, this`stopped
      ensures Model() == FeedSteps.ConnectClient(options, old(Model()))
    {
      MakeClient();
      var parsed := ParseWsUrl(options.wsUrl);
      if parsed.Err? {
        OnError(InvalidUrl);
        return;
      }
      Begin(Pending(client, Resolve));
    }

    method MakeClient()
      modifies this`client, this`history
      ensures Model() == NewClient(old(Model()))
    {
      client := client + 1;
      history := history.(connects := history.connects + [headers]);
    }

    method OnOpen()
      modifies this`notes, this`backoff, this`pending, this`history
      ensures Model() == FeedSteps.OnOpen(options, old(Model()))
    {
      Log(WsOpen);
      backoff := options.initialDelay;
      if options.subscribeCmd != "" {
        history := history.(sent := history.sent + [Sent(client, options.subscribeCmd)]);
        Begin(Pending(client, Write));
      }
    }

    method DispatchMessage(w: Wire) returns (r: Result<(), ParseError>)
      modifies this`notes, this`made, dispatcher.sink.sinks
      ensures r == if Decode(w).Ok? then Ok(()) else Err(Decode(w).error)
      ensures made == old(made) + CallsOf(w) && SinksGot(CallsOf(w))
      ensures r.Ok? || r.error == UnsupportedType ==> notes == old(notes)
      ensures r.Err? && r.error != UnsupportedType ==>
                var raw := if options.includeRawOnParseError then Some(w.text) else None;
                notes == old(notes) + [ParseFailed(r.error, raw)]
    {
      r := dispatcher.OnMessage(w);
      made := made + CallsOf(w);
      if r.Err? && r.error != UnsupportedType {
        Log(ParseFailed(r.error, if options.includeRawOnParseError then Some(w.text) else None));
      }
    }

    method OnMessage(w: Wire)
      modifies this`out, this`notes, this`seen, this`remaining, this`stopped, this`made, this`history
      modifies dispatcher.sink.sinks
      ensures Model() == FeedSteps.OnMessage(options, old(Model()), w) && SinksGot(CallsOf(w))
    {
      RecordReceived(w);
      DispatchAndLog(w);
      CountMessage();
    }

    method DispatchAndLog(w: Wire)
      modifies this`notes, this`made, dispatcher.sink.sinks
      ensures Model() == FeedSteps.DispatchMessage(options, old(Model()), w) && SinksGot(CallsOf(w))
    {
      var dispatched := DispatchMessage(w);
      if dispatched.Err? && dispatched.error == UnsupportedType {
        Log(UnsupportedMessage);
      }
    }

    method CountMessage()
      modifies this`notes, this`remaining, this`stopped
      ensures Model() == CountDown(old(Model()))
    {
      if remaining > 0 {
        remaining := remaining - 1;
        if remaining == 0 {
          Log(MaxMessagesReached);
          stopped := true;
        }
      }
    }

    method RecordReceived(w: Wire)
      modifies this`out, this`notes, this`seen, this`history
      ensures Model() == RecordMessage(options, old(Model()), w)
    {
      out := out + (w.text + "\n");
      ghost var before := notes;
      if options.logRawMessages {
        Log(RawMessage(|w.text|, seen, w.text));
      }
      assert before + [] == before;
      if seen == 0 {
        Log(FirstMessage);
      } else {
        assert notes + [] == notes;
      }
      seen := seen + 1;
      history := history.(received := history.received + [w]);
    }

    // -------------------------------------------------------------- what the event loop runs

    ghost method Record(e: Event, before: Feed)
      requires Allowed(options, Start(options, startHeaders), trace)
      requires before == Run(options, Start(options, startHeaders), trace)
      requires Enabled(before, e) && Model() == Next(options, before, e)
      modifies this`trace
      ensures Valid() && trace == old(trace) + [e]
    {
      RunSnoc(options, Start(options, startHeaders), trace, e);
      trace := trace + [e];
    }

    /** on_resolve, on_connect or on_ssl_handshake, which start the next operation, or on_write, with success. */
    method OnStage(p: Pending, message: Wire)
      requires p.op != WsHandshake && p.op != Read
      requires Valid() && Enabled(Model(), Succeed(p, message))
      modifies this
      ensures Valid() && trace == old(trace) + [Succeed(p, message)]
      ensures Model() == Next(options, old(Model()), Succeed(p, message))
      ensures pending == old(pending) - multiset{p} +
                         match p.op
                         case Resolve => multiset{Pending(p.client, Connect)}
                         case Connect => multiset{Pending(p.client, SslHandshake)}
                         case SslHandshake => multiset{Pending(p.client, WsHandshake)}
                         case _ => multiset{}
    {
      HandleStage(p);
      Record(Succeed(p, message), old(Model()));
    }

    method HandleStage(p: Pending)
      requires p.op != WsHandshake && p.op != Read
      modifies this`pending
      ensures Model() == StageDone(options, Finished(old(Model()), p), p)
    {
      End(p);
      match p.op {
      case Resolve => Begin(Pending(p.client, Connect));
      case Connect => Begin(Pending(p.client, SslHandshake));
      case SslHandshake => Begin(Pending(p.client, WsHandshake));
      case _ =>
      }
    }

    /** on_ws_handshake with success. */
    method OnWsHandshake(client: nat, message: Wire)
      requires Valid() && Enabled(Model(), Succeed(Pending(client, WsHandshake), message))
      modifies this
      ensures Valid() && trace == old(trace) + [Succeed(Pending(client, WsHandshake), message)]
      ensures Model() == Next(options, old(Model()), Succeed(Pending(client, WsHandshake), message))
    {
      HandleHandshake(Pending(client, WsHandshake));
      Record(Succeed(Pending(client, WsHandshake), message), old(Model()));
    }

    method HandleHandshake(p: Pending)
      requires p.op == WsHandshake
      modifies this`notes, this`backoff, this`pending, this`history
      ensures Model() == StageDone(options, Finished(old(Model()), p), p)
    {
      End(p);
      OnOpen();
      Begin(Pending(p.client, Read));
    }

    /** on_read with success. */
    method OnRead(client: nat, message: Wire)
      requires Valid() && Enabled(Model(), Succeed(Pending(client, Read), message))
      modifies this, dispatcher.sink.sinks
      ensures Valid() && trace == old(trace) + [Succeed(Pending(client, Read), message)]
      ensures Model() == Next(options, old(Model()), Succeed(Pending(client, Read), message))
      ensures SinksGot(CallsOf(message))
    {
      HandleRead(Pending(client, Read), message);
      Record(Succeed(Pending(client, Read), message), old(Model()));
    }

    method HandleRead(p: Pending, message: Wire)
      requires p.op == Read
      modifies this`out, this`notes, this`seen, this`remaining, this`stopped, this`made, this`history, this`pending
      modifies dispatcher.sink.sinks
      ensures trace == old(trace) && Model() == OnSuccess(options, old(Model()), p, message)
      ensures SinksGot(CallsOf(message))
    {
      ghost var before := Model();
      End(p);
      OnMessage(message);
      Begin(p);
      assert Model() == Started(FeedSteps.OnMessage(options, Finished(before, p), message), p);
    }

    method End(p: Pending)
      modifies this`pending
      ensures Model() == Finished(old(Model()), p)
    {
      pending := pending - multiset{p};
    }

    method Begin(p: Pending)
      modifies this`pending
      ensures pending == old(pending) + multiset{p} && Model() == Started(old(Model()), p)
    {
      pending := pending + multiset{p};
    }

    /** The same callbacks with an error. */
    method CompleteWithError(p: Pending)
      requires Valid() && Enabled(Model(), Fail(p))
      modifies this
      ensures Valid() && trace == old(trace) + [Fail(p)] && Model() == Next(options, old(Model()), Fail(p))
    {
      HandleFailure(p, ErrorOf(p.op));
      Record(Fail(p), old(Model()));
    }

    method HandleFailure(p: Pending, code: WsError)
      modifies this`backoff, this`notes, this`waits, this`stopped, this`pending
      ensures Model() == FeedSteps.OnError(options, Finished(old(Model()), p), code)
    {
      End(p);
      OnError(code);
    }

    /** on_connect when the host name cannot be set for the TLS handshake. */
    method OnSniFailure(client: nat)
      requires Valid() && Enabled(Model(), SniFails(client))
      modifies this
      ensures Valid() && trace == old(trace) + [SniFails(client)]
      ensures Model() == Next(options, old(Model()), SniFails(client))
    {
      HandleFailure(Pending(client, Connect), SslHandshakeFailed);
      Record(SniFails(client), old(Model()));
    }

    /** The live wait expires; its handler becomes due. */
    method ExpireTimer()
      requires Valid() && Enabled(Model(), TimerExpires)
      modifies this`waits, this`trace
      ensures Valid() && trace == old(trace) + [TimerExpires] && Model() == Next(options, old(Model()), TimerExpires)
    {
      waits := waits.(live := waits.live - 1, fired := waits.fired + 1);
      Record(TimerExpires, old(Model()));
    }

    /** The handler of a cancelled wait, which returns at once. */
    method OnCancelledWait()
      requires Valid() && Enabled(Model(), CancelledHandler)
      modifies this`waits, this`trace
      ensures Valid() && trace == old(trace) + [CancelledHandler]
      ensures Model() == Next(options, old(Model()), CancelledHandler)
    {
      waits := waits.(cancelled := waits.cancelled - 1);
      Record(CancelledHandler, old(Model()));
    }

    /** An operation of a replaced client is gone with it. */
    method AbandonOperation(p: Pending)
      requires Valid() && Enabled(Model(), Abandon(p))
      modifies this`pending, this`trace
      ensures Valid() && trace == old(trace) + [Abandon(p)] && Model() == Next(options, old(Model()), Abandon(p))
    {
      End(p);
      Record(Abandon(p), old(Model()));
    }

    /** The reconnect timer's handler without an error. */
    method OnReconnectTimer(refresh: Refresh)
      requires Valid() && Enabled(Model(), TimerHandler(refresh))
      modifies this
      ensures Valid() && trace == old(trace) + [TimerHandler(refresh)]
      ensures Model() == Next(options, old(Model()), TimerHandler(refresh))
    {
      Reconnect(refresh);
      Record(TimerHandler(refresh), old(Model()));
    }

    method Reconnect(refresh: Refresh)
      requires waits.fired > 0
      modifies this
      ensures trace == old(trace) && Model() == OnTimer(options, old(Model()), refresh)
    {
      ApplyRefresh(refresh);
      ConnectClient();
    }

    method ApplyRefresh(refresh: Refresh)
      requires waits.fired > 0
      modifies this`waits, this`headers, this`notes
      ensures Model() == TimerDue(old(Model()), refresh)
    {
      waits := waits.(fired := waits.fired - 1);
      match refresh {
      case NotSet =>
      case Refreshed(fetched) => headers := fetched;
      case RefreshFailed => Log(HeadersNotRefreshed);
      }
    }

    // -------------------------------------------------------------- the loop

    method HandleSuccess(p: Pending, message: Wire)
      requires Valid() && Enabled(Model(), Succeed(p, message))
      modifies this, dispatcher.sink.sinks
      ensures Valid() && trace == old(trace) + [Succeed(p, message)]
      ensures Model() == Next(options, old(Model()), Succeed(p, message))
      ensures SinksGot(if p.op == Read then CallsOf(message) else [])
    {
      match p.op {
      case Read => OnRead(p.client, message);
      case WsHandshake => OnWsHandshake(p.client, message);
      case Resolve | Connect | SslHandshake | Write => OnStage(p, message);
      }
    }

    /** The handler of one completion. */
    method Handle(e: Event)
      requires Valid() && Enabled(Model(), e)
      modifies this, dispatcher.sink.sinks
      ensures Valid() && trace == old(trace) + [e] && Model() == Next(options, old(Model()), e)
      ensures SinksGot(DecodedCalls(OneDelivered(e)))
    {
      DeliveredCalls(e);
      match e {
      case Succeed(p, message) => HandleSuccess(p, message);
      case SniFails(client) => OnSniFailure(client);
      case Fail(p) => CompleteWithError(p);
      case TimerExpires => ExpireTimer();
      case TimerHandler(refresh) => OnReconnectTimer(refresh);
      case CancelledHandler => OnCancelledWait();
      case Abandon(p) => AbandonOperation(p);
      }
    }

    /**
     * What the fields say of the messages delivered so far: the raw output and the counter,
     * the calls made, the budget, and that the loop has work until it is stopped.
     */
    ghost predicate Sound()
      reads this
    {
      var messages := Delivered(trace);
      && out == RawText(messages) && seen == |messages| && made == DecodedCalls(messages)
      && (!stopped ==> HasWork(Model())) && waits.live <= 1
      && (options.maxMessages > 0 ==> remaining + seen == options.maxMessages)
      && (stopped <==>
            (options.maxMessages > 0 && seen == options.maxMessages) || (!options.autoReconnect && Failures(notes) > 0))
    }

    /** Every valid object is sound. */
    lemma ValidIsSound()
      requires Valid()
      ensures Sound()
    {
      NeverIdle(options, startHeaders, trace);
      StreamsAgree(options, startHeaders, trace);
      MessageBudget(options, startHeaders, trace);
      StartRecords(options, startHeaders);
      ReceivesDelivered(options, Start(options, startHeaders), trace);
      assert [] + Delivered(trace) == Delivered(trace);
    }

    /** Each sink holds what it held before and these calls, as often as it is listed. */
    ghost predicate SinksHold(before: map<MarketSink, seq<SinkCall>>, calls: seq<SinkCall>)
      reads dispatcher.sink.sinks
    {
      forall s :: s in dispatcher.sink.sinks ==>
        s in before && s.calls == before[s] + Spread(calls, Occurrences(dispatcher.sink.sinks, s))
    }

    /** One turn of the loop; the completions left can still come. */
    method Turn(events: seq<Event>, i: nat, ghost before: map<MarketSink, seq<SinkCall>>)
      requires Valid() && i < |events| && Allowed(options, Model(), events[i..])
      requires SinksHold(before, DecodedCalls(Delivered(events[..i])))
      modifies this, dispatcher.sink.sinks
      ensures Valid() && trace == old(trace) + [events[i]] && Allowed(options, Model(), events[i + 1..])
      ensures SinksHold(before, DecodedCalls(Delivered(events[..i + 1])))
    {
      FirstAllowed(options, Model(), events, i);
      Handle(events[i]);
      forall n: nat
        ensures Spread(DecodedCalls(Delivered(events[..i + 1])), n) ==
                Spread(DecodedCalls(Delivered(events[..i])), n) + Spread(DecodedCalls(OneDelivered(events[i])), n)
      {
        CallsGrow(events, i, n);
      }
    }

    /**
     * The event loop over any completions the environment chooses. Every sink receives, as
     * often as it is listed, the calls of the messages that decode, in the order they came,
     * over all connections; the other streams, the budget and the work left are as they
     * should be.
     */
    method RunLoop(events: seq<Event>)
      requires Valid() && Allowed(options, Model(), events)
      modifies this, dispatcher.sink.sinks
      ensures Valid() && trace == old(trace) + events && Sound()
      ensures SinksGot(DecodedCalls(Delivered(events)))
      ensures forall s :: s in dispatcher.sink.sinks && Occurrences(dispatcher.sink.sinks, s) == 1 ==>
                s.calls == old(s.calls) + DecodedCalls(Delivered(events))
    {
      SpreadOnce(DecodedCalls(Delivered(events)));
      ghost var before := map s | s in dispatcher.sink.sinks :: s.calls;
      assert trace + [] == trace;
      for i := 0 to |events|
        invariant Valid() && trace == old(trace) + events[..i] && Allowed(options, Model(), events[i..])
        invariant SinksHold(before, DecodedCalls(Delivered(events[..i])))
      {
        TakeOneMore(old(trace), events, i);
        Turn(events, i, before);
      }
      assert events[..|events|] == events;
      ValidIsSound();
    }
  }

  lemma TakeOneMore(before: seq<Event>, events: seq<Event>, i: nat)
    requires i < |events|
    ensures before + events[..i] + [events[i]] == before + events[..i + 1]
  {
  }

  lemma FirstAllowed(o: Options, s: Feed, events: seq<Event>, i: nat)
    requires i < |events| && Allowed(o, s, events[i..])
    ensures Enabled(s, events[i]) && Allowed(o, Next(o, s, events[i]), events[i + 1..])
  {
    assert events[i..][0] == events[i] && events[i..][1..] == events[i + 1..];
  }

  /** The calls of a trace, each n times, grow by those of its next event. */
  lemma CallsGrow(events: seq<Event>, i: nat, n: nat)
    requires i < |events|
    ensures Spread(DecodedCalls(Delivered(events[..i + 1])), n) ==
            Spread(DecodedCalls(Delivered(events[..i])), n) + Spread(DecodedCalls(OneDelivered(events[i])), n)
  {
    var e := events[i];
    assert events[..i + 1] == events[..i] + [e];
    DeliveredSnoc(events[..i], e);
    if OneDelivered(e) == [] {
      assert Delivered(events[..i]) + [] == Delivered(events[..i]);
    } else {
      DecodedSnoc(Delivered(events[..i]), e.message);
      SpreadGrows(DecodedCalls(Delivered(events[..i])), e.message, n);
      DeliveredCalls(e);
    }
  }

  lemma DeliveredCalls(e: Event)
    ensures DecodedCalls(OneDelivered(e)) == if e.Succeed? && e.p.op == Read then CallsOf(e.message) else []
  {
    if e.Succeed? && e.p.op == Read {
      assert DecodedCalls([e.message]) == [] + CallsOf(e.message);
    }
  }

  lemma SpreadGrows(calls: seq<SinkCall>, w: Wire, n: nat)
    ensures Spread(calls + CallsOf(w), n) == Spread(calls, n) + Spread(CallsOf(w), n)
  {
    SpreadCalls(w, n);
    if Decode(w).Ok? {
      assert (calls + CallsOf(w))[..|calls|] == calls;
    } else {
      assert calls + [] == calls;
    }
  }

  lemma {:induction false} DeliveredSnoc(trace: seq<Event>, e: Event)
    ensures Delivered(trace + [e]) == Delivered(trace) + OneDelivered(e)
  {
    if trace == [] {
      assert [] + [e] == [e] && [e][1..] == [];
    } else {
      assert (trace + [e])[1..] == trace[1..] + [e];
      DeliveredSnoc(trace[1..], e);
    }
  }
}
