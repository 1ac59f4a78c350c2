/** What every run of the feed handler keeps, across reconnects and stray completions. */
module FeedProofs {
  import opened Prelude
  import opened MarketEvents
  import opened EventParser
  import opened FeedSteps
  import Backoff
  import WsUrl

  /** Each message and a newline, in order. */
  function RawText(received: seq<Wire>): string {
    if received == [] then "" else RawText(received[..|received| - 1]) + (received[|received| - 1].text + "\n")
  }

  /** The sink calls of the messages that decode, in order. */
  function DecodedCalls(received: seq<Wire>): seq<SinkCall> {
    if received == [] then []
    else DecodedCalls(received[..|received| - 1]) + CallsOf(received[|received| - 1])
  }

  function FirstNotes(notes: seq<Note>): nat {
    if notes == [] then 0
    else FirstNotes(notes[..|notes| - 1]) + if notes[|notes| - 1].FirstMessage? then 1 else 0
  }

  /** The errors reported. */
  function Failures(notes: seq<Note>): nat {
    if notes == [] then 0
    else Failures(notes[..|notes| - 1]) + if notes[|notes| - 1].WsFailed? then 1 else 0
  }

  /** The delays scheduled since the last open, or since the start. */
  function Outage(notes: seq<Note>): seq<int> {
    if notes == [] then []
    else
      var before, last := notes[..|notes| - 1], notes[|notes| - 1];
      if last.WsOpen? then []
      else if last.ReconnectScheduled? then Outage(before) + [last.delay]
      else Outage(before)
  }

  /** An operation of the current client that leads on by itself; a write does not. */
  predicate ClientBusy(s: Feed) {
    || Pending(s.client, Resolve) in s.pending || Pending(s.client, Connect) in s.pending
    || Pending(s.client, SslHandshake) in s.pending || Pending(s.client, WsHandshake) in s.pending
    || Pending(s.client, Read) in s.pending
  }

  predicate HasWork(s: Feed) { ClientBusy(s) || s.waits.live > 0 || s.waits.fired > 0 }

  /** The loop has work until it is stopped. */
  predicate Working(o: Options, s: Feed) {
    && (!s.stopped ==> HasWork(s))
    && s.waits.live <= 1
    && (!o.autoReconnect ==> s.waits.live == 0 && s.waits.fired == 0)
  }

  /** The output, the counter, the first-message note and the sink agree on the messages received. */
  predicate Streams(s: Feed) {
    && s.raw == RawText(s.history.received)
    && s.seen == |s.history.received|
    && FirstNotes(s.notes) == (if s.seen > 0 then 1 else 0)
    && s.calls == DecodedCalls(s.history.received)
  }

  /** The message budget, and the only two ways to stop. */
  predicate Budgeted(o: Options, s: Feed) {
    && (o.maxMessages > 0 ==> s.remaining + s.seen == o.maxMessages)
    && (o.maxMessages == 0 ==> s.remaining == 0)
    && (s.stopped <==> (o.maxMessages > 0 && s.remaining == 0) || (!o.autoReconnect && Failures(s.notes) > 0))
  }

  /** The delays of the outage so far are the doubling sequence, and the next one is due. */
  predicate BackedOff(o: Options, s: Feed) {
    && s.backoff == Backoff.Delay(o.initialDelay, o.maxDelay, |Outage(s.notes)|)
    && forall k :: 0 <= k < |Outage(s.notes)| ==>
         Outage(s.notes)[k] == Backoff.Delay(o.initialDelay, o.maxDelay, k)
  }

  predicate Inv(o: Options, s: Feed) { Working(o, s) && Streams(s) && Budgeted(o, s) && BackedOff(o, s) }

  // ---------------------------------------------------------------- handlers

  lemma NoteSnoc(notes: seq<Note>, note: Note)
    ensures FirstNotes(notes + [note]) == FirstNotes(notes) + if note.FirstMessage? then 1 else 0
    ensures Failures(notes + [note]) == Failures(notes) + if note.WsFailed? then 1 else 0
    ensures Outage(notes + [note]) ==
            if note.WsOpen? then []
            else if note.ReconnectScheduled? then Outage(notes) + [note.delay]
            else Outage(notes)
  {
  }

  /** Scheduling leaves one live wait and moves one step along the doubling sequence. */
  lemma ScheduleKeeps(o: Options, s: Feed)
    requires o.autoReconnect && s.waits.live <= 1 && Streams(s) && Budgeted(o, s) && BackedOff(o, s)
    ensures Inv(o, ScheduleReconnect(o, s)) && ScheduleReconnect(o, s).waits.live == 1
  {
    var k := |Outage(s.notes)|;
    NoteSnoc(s.notes, ReconnectScheduled(s.backoff));
    Backoff.DelayStep(o.initialDelay, o.maxDelay, k);
    var outage := Outage(ScheduleReconnect(o, s).notes);
    assert outage == Outage(s.notes) + [s.backoff] && |outage| == k + 1;
  }

  predicate Loose(o: Options, s: Feed) {
    && s.waits.live <= 1 && (!o.autoReconnect ==> s.waits.live == 0 && s.waits.fired == 0)
    && !s.stopped && Streams(s) && Budgeted(o, s) && BackedOff(o, s)
  }

  lemma ErrorKeeps(o: Options, s: Feed, code: WsUrl.WsError)
    requires Loose(o, s)
    ensures Inv(o, OnError(o, s, code))
    ensures OnError(o, s, code).stopped <==> !o.autoReconnect
  {
    NoteSnoc(s.notes, WsFailed(code));
    if o.autoReconnect {
      ScheduleKeeps(o, Note1(s, WsFailed(code)));
    }
  }

  lemma ConnectKeeps(o: Options, s: Feed)
    requires Loose(o, s)
    ensures Inv(o, ConnectClient(o, s))
  {
    var made := NewClient(s);
    if WsUrl.ParseWsUrl(o.wsUrl).Err? {
      ErrorKeeps(o, made, WsUrl.InvalidUrl);
    }
  }

  lemma OpenKeeps(o: Options, s: Feed)
    requires Loose(o, s)
    ensures Loose(o, OnOpen(o, s))
  {
  }

  lemma DispatchNotes(o: Options, s: Feed, w: Wire)
    ensures var notes := DispatchMessage(o, s, w).notes;
            FirstNotes(notes) == FirstNotes(s.notes) && Failures(notes) == Failures(s.notes) &&
            Outage(notes) == Outage(s.notes)
  {
  }

  lemma DecodedSnoc(received: seq<Wire>, w: Wire)
    ensures RawText(received + [w]) == RawText(received) + (w.text + "\n")
    ensures DecodedCalls(received + [w]) ==
            if Decode(w).Ok? then DecodedCalls(received) + [Decode(w).value] else DecodedCalls(received)
  {
  }

  lemma MessageStreams(o: Options, s: Feed, w: Wire)
    requires Streams(s)
    ensures var t := DispatchMessage(o, RecordMessage(o, s, w), w);
            Streams(t) && Failures(t.notes) == Failures(s.notes) && Outage(t.notes) == Outage(s.notes)
  {
    DecodedSnoc(s.history.received, w);
    RecordNotes(o, s, w);
    DispatchNotes(o, RecordMessage(o, s, w), w);
  }

  lemma RecordNotes(o: Options, s: Feed, w: Wire)
    requires FirstNotes(s.notes) == (if s.seen > 0 then 1 else 0)
    ensures var notes := RecordMessage(o, s, w).notes;
            FirstNotes(notes) == 1 && Failures(notes) == Failures(s.notes) && Outage(notes) == Outage(s.notes)
  {
    var logged := s.notes + if o.logRawMessages then [RawMessage(|w.text|, s.seen, w.text)] else [];
    if o.logRawMessages {
      NoteSnoc(s.notes, RawMessage(|w.text|, s.seen, w.text));
    } else {
      assert logged == s.notes;
    }
    NoteSnoc(logged, FirstMessage);
    assert s.seen > 0 ==> logged + [] == logged;
  }

  lemma MessageKeeps(o: Options, s: Feed, w: Wire)
    requires Loose(o, s)
    ensures var t := OnMessage(o, s, w);
            && Streams(t) && Budgeted(o, t) && BackedOff(o, t)
            && t.waits == s.waits && t.pending == s.pending && t.client == s.client
            && (t.stopped <==> o.maxMessages > 0 && s.seen + 1 == o.maxMessages)
  {
    MessageStreams(o, s, w);
    var dispatched := DispatchMessage(o, RecordMessage(o, s, w), w);
    if dispatched.remaining == 1 {
      NoteSnoc(dispatched.notes, MaxMessagesReached);
    }
  }

  // ---------------------------------------------------------------- steps and runs

  lemma ReadKeeps(o: Options, s: Feed, client: nat, message: Wire)
    requires Inv(o, s) && !s.stopped && Pending(client, Read) in s.pending
    ensures Inv(o, OnSuccess(o, s, Pending(client, Read), message))
  {
    var done := Finished(s, Pending(client, Read));
    MessageKeeps(o, done, message);
    assert Working(o, Started(OnMessage(o, done, message), Pending(client, Read)));
  }

  lemma OpenedKeeps(o: Options, s: Feed, client: nat, message: Wire)
    requires Inv(o, s) && !s.stopped && Pending(client, WsHandshake) in s.pending
    ensures Inv(o, OnSuccess(o, s, Pending(client, WsHandshake), message))
  {
    var done := Finished(s, Pending(client, WsHandshake));
    assert Loose(o, done);
    OpenKeeps(o, done);
    assert Working(o, Started(OnOpen(o, done), Pending(client, Read)));
  }

  lemma StageKeeps(o: Options, s: Feed, p: Pending, message: Wire)
    requires Inv(o, s) && !s.stopped && p in s.pending && p.op != Read && p.op != WsHandshake
    ensures Inv(o, OnSuccess(o, s, p, message))
  {
    var t := OnSuccess(o, s, p, message);
    assert t == s.(pending := t.pending);
    assert ClientBusy(s) ==> ClientBusy(t);
  }

  lemma SuccessKeeps(o: Options, s: Feed, p: Pending, message: Wire)
    requires Inv(o, s) && !s.stopped && p in s.pending
    ensures Inv(o, OnSuccess(o, s, p, message))
  {
    match p.op
    case WsHandshake => OpenedKeeps(o, s, p.client, message);
    case Read => ReadKeeps(o, s, p.client, message);
    case _ => StageKeeps(o, s, p, message);
  }

  lemma TimerKeeps(o: Options, s: Feed, refresh: Refresh)
    requires Inv(o, s) && !s.stopped && s.waits.fired > 0
    ensures Inv(o, OnTimer(o, s, refresh))
  {
    NoteSnoc(s.notes, HeadersNotRefreshed);
    var due := s.(waits := s.waits.(fired := s.waits.fired - 1));
    assert Loose(o, due);
    match refresh {
      case NotSet => ConnectKeeps(o, due);
      case Refreshed(headers) => ConnectKeeps(o, due.(headers := headers));
      case RefreshFailed => ConnectKeeps(o, Note1(due, HeadersNotRefreshed));
    }
  }

  lemma FailureKeeps(o: Options, s: Feed, p: Pending, code: WsUrl.WsError)
    requires Inv(o, s) && !s.stopped
    ensures Inv(o, OnError(o, Finished(s, p), code))
  {
    assert Loose(o, Finished(s, p));
    ErrorKeeps(o, Finished(s, p), code);
  }

  lemma NextKeeps(o: Options, s: Feed, e: Event)
    requires Inv(o, s) && Enabled(s, e)
    ensures Inv(o, Next(o, s, e))
  {
    match e
    case Succeed(p, message) => SuccessKeeps(o, s, p, message);
    case SniFails(client) => FailureKeeps(o, s, Pending(client, Connect), WsUrl.SslHandshakeFailed);
    case Fail(p) => FailureKeeps(o, s, p, ErrorOf(p.op));
    case TimerHandler(refresh) => TimerKeeps(o, s, refresh);
    case _ => assert Working(o, Next(o, s, e));
  }

  lemma {:induction false} RunKeeps(o: Options, s: Feed, trace: seq<Event>)
    requires Inv(o, s) && Allowed(o, s, trace)
    ensures Inv(o, Run(o, s, trace))
    decreases trace
  {
    if trace != [] {
      NextKeeps(o, s, trace[0]);
      RunKeeps(o, Next(o, s, trace[0]), trace[1..]);
    }
  }

  lemma StartHolds(o: Options, headers: Headers)
    ensures Inv(o, Start(o, headers))
  {
    Backoff.DelayStep(o.initialDelay, o.maxDelay, 0);
    ConnectKeeps(o, Blank(o, headers));
  }

  // ---------------------------------------------------------------- main results

  /**
   * The loop never runs out of work. In every reachable state that is not stopped, an
   * operation of the current client is outstanding or a reconnect wait is live or due, and
   * never more than one wait is live, however reads and writes fail.
   */
  lemma NeverIdle(o: Options, headers: Headers, trace: seq<Event>)
    requires Allowed(o, Start(o, headers), trace)
    ensures var s := Run(o, Start(o, headers), trace);
            && (!s.stopped ==> HasWork(s) && exists e :: Enabled(s, e))
            && s.waits.live <= 1
  {
    var s := Run(o, Start(o, headers), trace);
    StartHolds(o, headers);
    RunKeeps(o, Start(o, headers), trace);
    if !s.stopped {
      WorkEnables(s);
    }
  }

  lemma WorkEnables(s: Feed)
    requires HasWork(s) && !s.stopped
    ensures exists e :: Enabled(s, e)
  {
    if s.waits.live > 0 {
      assert Enabled(s, TimerExpires);
    } else if s.waits.fired > 0 {
      assert Enabled(s, TimerHandler(NotSet));
    } else {
      var op :| Pending(s.client, op) in s.pending;
      assert Enabled(s, Fail(Pending(s.client, op)));
    }
  }

  /** Output, counter, first-message note and sink follow from the messages received, over all connections. */
  lemma StreamsAgree(o: Options, headers: Headers, trace: seq<Event>)
    requires Allowed(o, Start(o, headers), trace)
    ensures var s := Run(o, Start(o, headers), trace);
            var received := s.history.received;
            && s.raw == RawText(received) && s.seen == |received|
            && FirstNotes(s.notes) == (if received == [] then 0 else 1)
            && s.calls == DecodedCalls(received)
            && forall i :: 0 <= i < |s.calls| ==> !s.calls[i].OnStatus?
  {
    StartHolds(o, headers);
    RunKeeps(o, Start(o, headers), trace);
    NoStatusCalls(Run(o, Start(o, headers), trace).history.received);
  }

  lemma {:induction false} NoStatusCalls(received: seq<Wire>)
    ensures forall i :: 0 <= i < |DecodedCalls(received)| ==> !DecodedCalls(received)[i].OnStatus?
  {
    if received != [] {
      NoStatusCalls(received[..|received| - 1]);
    }
  }

  function OneDelivered(e: Event): seq<Wire> {
    if e.Succeed? && e.p.op == Read then [e.message] else []
  }

  /** The messages a trace delivers, in order. */
  function Delivered(trace: seq<Event>): seq<Wire> {
    if trace == [] then [] else OneDelivered(trace[0]) + Delivered(trace[1..])
  }

  /** The headers in use once an event is handled. */
  function HeadersNow(headers: Headers, e: Event): Headers {
    if e.TimerHandler? && e.refresh.Refreshed? then e.refresh.headers else headers
  }

  /** The headers each reconnect of a trace should use: the last ones fetched, older ones after a failed refresh. */
  function HeadersUsed(headers: Headers, trace: seq<Event>): seq<Headers>
    decreases trace
  {
    if trace == [] then []
    else
      var now := HeadersNow(headers, trace[0]);
      (if trace[0].TimerHandler? then [now] else []) + HeadersUsed(now, trace[1..])
  }

  /** A websocket handshake completed: on which client, and which client was the current one then. */
  datatype Opening = Opening(client: nat, current: nat)

  function OneOpening(client: nat, e: Event): seq<Opening> {
    if e.Succeed? && e.p.op == WsHandshake then [Opening(e.p.client, client)] else []
  }

  /** Every fired timer makes the next client the current one. */
  function ClientNow(client: nat, e: Event): nat { if e.TimerHandler? then client + 1 else client }

  /** The handshakes a trace completes, in order. */
  function Openings(client: nat, trace: seq<Event>): seq<Opening>
    decreases trace
  {
    if trace == [] then [] else OneOpening(client, trace[0]) + Openings(ClientNow(client, trace[0]), trace[1..])
  }

  /** The subscribe command, if any, once for each opening, on the client that was current. */
  function Commands(o: Options, openings: seq<Opening>): (sends: seq<Sent>)
    ensures |sends| == if o.subscribeCmd == "" then 0 else |openings|
    ensures forall i :: 0 <= i < |sends| ==> sends[i] == Sent(openings[i].current, o.subscribeCmd)
  {
    if o.subscribeCmd == "" then []
    else seq(|openings|, i requires 0 <= i < |openings| => Sent(openings[i].current, o.subscribeCmd))
  }

  lemma MessageRecords(o: Options, s: Feed, w: Wire)
    ensures OnMessage(o, s, w).history == s.history.(received := s.history.received + [w])
    ensures OnMessage(o, s, w).headers == s.headers && OnMessage(o, s, w).client == s.client
  {
  }

  lemma ErrorRecords(o: Options, s: Feed, code: WsUrl.WsError)
    ensures OnError(o, s, code).history == s.history && OnError(o, s, code).headers == s.headers
    ensures OnError(o, s, code).client == s.client
  {
  }

  lemma ConnectRecords(o: Options, s: Feed)
    ensures ConnectClient(o, s).history == NewClient(s).history && ConnectClient(o, s).headers == s.headers
    ensures ConnectClient(o, s).client == s.client + 1
  {
  }

  lemma SuccessRecords(o: Options, s: Feed, p: Pending, w: Wire)
    ensures var t := OnSuccess(o, s, p, w);
            && t.headers == s.headers && t.client == s.client && t.history.connects == s.history.connects
            && t.history.received == s.history.received + (if p.op == Read then [w] else [])
            && t.history.sent == s.history.sent + Commands(o, OneOpening(s.client, Succeed(p, w)))
  {
    assert s.history.received + [] == s.history.received && s.history.sent + [] == s.history.sent;
    if p.op == Read {
      MessageRecords(o, Finished(s, p), w);
    }
  }

  lemma NextRecords(o: Options, s: Feed, e: Event)
    requires Enabled(s, e)
    ensures var t := Next(o, s, e);
            && t.headers == HeadersNow(s.headers, e) && t.client == ClientNow(s.client, e)
            && t.history.received == s.history.received + OneDelivered(e)
            && t.history.connects == s.history.connects + (if e.TimerHandler? then [t.headers] else [])
            && t.history.sent == s.history.sent + Commands(o, OneOpening(s.client, e))
  {
    assert s.history.received + [] == s.history.received && s.history.connects + [] == s.history.connects;
    assert s.history.sent + [] == s.history.sent;
    match e
    case Succeed(p, message) => SuccessRecords(o, s, p, message);
    case SniFails(client) => ErrorRecords(o, Finished(s, Pending(client, Connect)), WsUrl.SslHandshakeFailed);
    case Fail(p) => ErrorRecords(o, Finished(s, p), ErrorOf(p.op));
    case TimerHandler(refresh) => ConnectRecords(o, TimerDue(s, refresh));
    case _ =>
  }

  /** No delivered message is lost or reordered, whichever connection it came over. */
  lemma {:induction false} ReceivesDelivered(o: Options, s: Feed, trace: seq<Event>)
    requires Allowed(o, s, trace)
    ensures Run(o, s, trace).history.received == s.history.received + Delivered(trace)
    decreases trace
  {
    if trace == [] {
      assert s.history.received + [] == s.history.received;
    } else {
      NextRecords(o, s, trace[0]);
      ReceivesDelivered(o, Next(o, s, trace[0]), trace[1..]);
      Assoc(s.history.received, OneDelivered(trace[0]), Delivered(trace[1..]));
    }
  }

  lemma {:induction false} ConnectsUse(o: Options, s: Feed, trace: seq<Event>)
    requires Allowed(o, s, trace)
    ensures Run(o, s, trace).history.connects == s.history.connects + HeadersUsed(s.headers, trace)
    decreases trace
  {
    if trace == [] {
      assert s.history.connects + [] == s.history.connects;
    } else {
      var t := Next(o, s, trace[0]);
      NextRecords(o, s, trace[0]);
      ConnectsUse(o, t, trace[1..]);
      Assoc(s.history.connects, if trace[0].TimerHandler? then [t.headers] else [], HeadersUsed(t.headers, trace[1..]));
    }
  }

  lemma CommandsConcat(o: Options, first: seq<Opening>, others: seq<Opening>)
    ensures Commands(o, first + others) == Commands(o, first) + Commands(o, others)
  {
  }

  lemma {:induction false} SendsOnOpen(o: Options, s: Feed, trace: seq<Event>)
    requires Allowed(o, s, trace)
    ensures Run(o, s, trace).history.sent == s.history.sent + Commands(o, Openings(s.client, trace))
    decreases trace
  {
    if trace == [] {
      assert s.history.sent + [] == s.history.sent;
    } else {
      var t := Next(o, s, trace[0]);
      NextRecords(o, s, trace[0]);
      SendsOnOpen(o, t, trace[1..]);
      var first, others := OneOpening(s.client, trace[0]), Openings(t.client, trace[1..]);
      CommandsConcat(o, first, others);
      Assoc(s.history.sent, Commands(o, first), Commands(o, others));
    }
  }

  /**
   * Every connect uses the headers last fetched, the earlier ones if the latest refresh
   * failed. The subscribe command, if any, is sent once for each websocket handshake
   * completed and nothing else is sent; it goes to the current client, so to the client
   * that opened if and only if that is the current one.
   */
  lemma Resubscribes(o: Options, headers: Headers, trace: seq<Event>)
    requires Allowed(o, Start(o, headers), trace)
    ensures var h := Run(o, Start(o, headers), trace).history;
            var openings := Openings(1, trace);
            && h.connects == [headers] + HeadersUsed(headers, trace)
            && (o.subscribeCmd == "" ==> h.sent == [])
            && (o.subscribeCmd != "" ==>
                  && |h.sent| == |openings|
                  && (forall i :: 0 <= i < |openings| ==> h.sent[i] == Sent(openings[i].current, o.subscribeCmd))
                  && (forall i :: 0 <= i < |openings| ==>
                        (h.sent[i].client == openings[i].client <==> openings[i].client == openings[i].current)))
  {
    StartRecords(o, headers);
    SendsOnOpen(o, Start(o, headers), trace);
    ConnectsUse(o, Start(o, headers), trace);
    var sends := Commands(o, Openings(1, trace));
    assert [] + sends == sends;
  }

  lemma StartRecords(o: Options, headers: Headers)
    ensures Start(o, headers).history == History([], [headers], []) && Start(o, headers).headers == headers
    ensures Start(o, headers).client == 1
  {
  }

  /**
   * The message budget N. Remaining and seen add up to N across reconnects; with reconnect
   * enabled the loop is stopped exactly when the N-th message was processed, so no later
   * one is; without a budget messages never stop it.
   */
  lemma MessageBudget(o: Options, headers: Headers, trace: seq<Event>)
    requires Allowed(o, Start(o, headers), trace)
    ensures var s := Run(o, Start(o, headers), trace);
            && (o.maxMessages > 0 ==> s.remaining + s.seen == o.maxMessages && |Delivered(trace)| <= o.maxMessages)
            && (s.stopped <==>
                  (o.maxMessages > 0 && |Delivered(trace)| == o.maxMessages) ||
                  (!o.autoReconnect && Failures(s.notes) > 0))
  {
    StartHolds(o, headers);
    RunKeeps(o, Start(o, headers), trace);
    ReceivesDelivered(o, Start(o, headers), trace);
    assert [] + Delivered(trace) == Delivered(trace);
  }

  /**
   * Backoff. The delay scheduled at error k of an outage is min(initial * 2^k, maximum);
   * within the outage delays never fall and stay between the bounds.
   */
  lemma OutageDelays(o: Options, headers: Headers, trace: seq<Event>, j: nat, k: nat)
    requires Allowed(o, Start(o, headers), trace) && 0 <= o.initialDelay <= o.maxDelay
    requires j <= k < |Outage(Run(o, Start(o, headers), trace).notes)|
    ensures var outage := Outage(Run(o, Start(o, headers), trace).notes);
            && outage[k] == Backoff.Min(o.initialDelay * Backoff.Pow2(k), o.maxDelay)
            && o.initialDelay <= outage[j] <= outage[k] <= o.maxDelay
            && (o.initialDelay >= 1 ==>
                  (outage[k] == o.maxDelay <==> k >= Backoff.Doublings(o.initialDelay, o.maxDelay)))
  {
    StartHolds(o, headers);
    RunKeeps(o, Start(o, headers), trace);
    Backoff.DelaysRise(o.initialDelay, o.maxDelay, j, k);
    Backoff.GrowsAtLeast(o.initialDelay, k);
    if o.initialDelay >= 1 {
      Backoff.ReachesMaxIff(o.initialDelay, o.maxDelay, k);
    }
  }
}
