/**
 * The feed handler, its websocket clients and the reconnect timer as one event loop. The
 * environment chooses which outstanding operation completes and how. Operations of a
 * replaced client may still complete or be abandoned; nothing is assumed about them.
 */
module FeedSteps {
  import opened Prelude
  import opened MarketEvents
  import opened EventParser
  import opened WsUrl
  import Backoff

  type Headers = seq<(string, string)>

  datatype Options = Options(
    wsUrl: string, subscribeCmd: string, includeRawOnParseError: bool, logRawMessages: bool,
    autoReconnect: bool, initialDelay: int, maxDelay: int, maxMessages: nat)

  datatype Op = Resolve | Connect | SslHandshake | WsHandshake | Read | Write

  /** An asynchronous operation of one client; clients are numbered as they are made. */
  datatype Pending = Pending(client: nat, op: Op)

  /**
   * Waits on the reconnect timer: not expired and not cancelled; expired, the handler due
   * with success; cancelled, the handler due with an error.
   */
  datatype Waits = Waits(live: nat, fired: nat, cancelled: nat)

  /** refresh_headers: absent, new headers, or a failure. */
  datatype Refresh = NotSet | Refreshed(headers: Headers) | RefreshFailed

  datatype Note =
    | WsOpen
    | RawMessage(bytes: nat, count: nat, text: string)
    | FirstMessage
    | UnsupportedMessage
    | ParseFailed(error: ParseError, raw: Option<string>)
    | MaxMessagesReached
    | WsFailed(code: WsError)
    | ReconnectScheduled(delay: int)
    | HeadersNotRefreshed

  /** A text handed to a client to send. */
  datatype Sent = Sent(client: nat, text: string)

  /** What happened so far; read by no step. */
  datatype History = History(
    received: seq<Wire>,      // every message delivered
    connects: seq<Headers>,   // the headers passed to each connect
    sent: seq<Sent>)          // every text sent, with the client it was sent on

  datatype Feed = Feed(
    remaining: nat, seen: nat, client: nat, backoff: int, headers: Headers,
    pending: multiset<Pending>, waits: Waits, stopped: bool,
    raw: string, notes: seq<Note>, calls: seq<SinkCall>, history: History)

  datatype Event =
    | Succeed(p: Pending, message: Wire)   // message is what a read delivers
    | SniFails(client: nat)                // connected, but the host name cannot be set
    | Fail(p: Pending)
    | TimerExpires
    | TimerHandler(refresh: Refresh)
    | CancelledHandler
    | Abandon(p: Pending)

  function Note1(s: Feed, note: Note): Feed { s.(notes := s.notes + [note]) }

  function ScheduleReconnect(o: Options, s: Feed): Feed {
    Note1(s, ReconnectScheduled(s.backoff)).(
      backoff := Backoff.Doubled(s.backoff, o.maxDelay),
      waits := Waits(1, s.waits.fired, s.waits.cancelled + s.waits.live))
  }

  function OnError(o: Options, s: Feed, code: WsError): Feed {
    var noted := Note1(s, WsFailed(code));
    if !o.autoReconnect then noted.(stopped := true) else ScheduleReconnect(o, noted)
  }

  function Started(s: Feed, p: Pending): Feed { s.(pending := s.pending + multiset{p}) }

  function NewClient(s: Feed): Feed {
    s.(client := s.client + 1, history := s.history.(connects := s.history.connects + [s.headers]))
  }

  function ConnectClient(o: Options, s: Feed): Feed {
    var made := NewClient(s);
    if ParseWsUrl(o.wsUrl).Err? then OnError(o, made, InvalidUrl)
    else Started(made, Pending(made.client, Resolve))
  }

  function OnOpen(o: Options, s: Feed): Feed {
    var reset := Note1(s, WsOpen).(backoff := o.initialDelay);
    if o.subscribeCmd == "" then reset
    else reset.(pending := s.pending + multiset{Pending(s.client, Write)},
                history := s.history.(sent := s.history.sent + [Sent(s.client, o.subscribeCmd)]))
  }

  function DispatchMessage(o: Options, s: Feed, w: Wire): Feed {
    match Decode(w)
    case Ok(call) => s.(calls := s.calls + [call])
    case Err(error) =>
      if error == UnsupportedType then Note1(s, UnsupportedMessage)
      else Note1(s, ParseFailed(error, if o.includeRawOnParseError then Some(w.text) else None))
  }

  /** The message written, logged and counted, before it is dispatched. */
  function RecordMessage(o: Options, s: Feed, w: Wire): Feed {
    s.(raw := s.raw + (w.text + "\n"),
       notes := s.notes + (if o.logRawMessages then [RawMessage(|w.text|, s.seen, w.text)] else [])
                + (if s.seen == 0 then [FirstMessage] else []),
       seen := s.seen + 1,
       history := s.history.(received := s.history.received + [w]))
  }

  function CountDown(s: Feed): Feed {
    if s.remaining == 0 then s
    else if s.remaining == 1 then Note1(s, MaxMessagesReached).(remaining := 0, stopped := true)
    else s.(remaining := s.remaining - 1)
  }

  function OnMessage(o: Options, s: Feed, w: Wire): Feed {
    CountDown(DispatchMessage(o, RecordMessage(o, s, w), w))
  }

  function ErrorOf(op: Op): WsError {
    match op
    case Resolve => ResolveFailed
    case Connect => ConnectFailed
    case SslHandshake => SslHandshakeFailed
    case WsHandshake => WsHandshakeFailed
    case Read => ReadFailed
    case Write => WriteFailed
  }

  function Finished(s: Feed, p: Pending): Feed { s.(pending := s.pending - multiset{p}) }

  /** What a client starts when an operation on the way to a connection succeeds. */
  function NextOp(op: Op): Op {
    match op
    case Resolve => Connect
    case Connect => SslHandshake
    case SslHandshake => WsHandshake
    case _ => Read
  }

  /** The handler of an operation other than a read that succeeded; the client goes on with its next one. */
  function StageDone(o: Options, s: Feed, p: Pending): Feed {
    match p.op
    case WsHandshake => Started(OnOpen(o, s), Pending(p.client, Read))
    case Write => s
    case _ => Started(s, Pending(p.client, NextOp(p.op)))
  }

  function OnSuccess(o: Options, s: Feed, p: Pending, message: Wire): Feed {
    if p.op == Read then Started(OnMessage(o, Finished(s, p), message), p) else StageDone(o, Finished(s, p), p)
  }

  /** The wait used up and the headers refreshed, if they can be. */
  function TimerDue(s: Feed, refresh: Refresh): Feed {
    var due := s.(waits := s.waits.(fired := if s.waits.fired > 0 then s.waits.fired - 1 else 0));
    match refresh
    case NotSet => due
    case Refreshed(headers) => due.(headers := headers)
    case RefreshFailed => Note1(due, HeadersNotRefreshed)
  }

  function OnTimer(o: Options, s: Feed, refresh: Refresh): Feed { ConnectClient(o, TimerDue(s, refresh)) }

  predicate Enabled(s: Feed, e: Event) {
    && !s.stopped
    && match e
       case Succeed(p, _) => p in s.pending
       case SniFails(client) => Pending(client, Connect) in s.pending
       case Fail(p) => p in s.pending
       case TimerExpires => s.waits.live > 0
       case TimerHandler(_) => s.waits.fired > 0
       case CancelledHandler => s.waits.cancelled > 0
       case Abandon(p) => p in s.pending && p.client != s.client
  }

  function Next(o: Options, s: Feed, e: Event): Feed
    requires Enabled(s, e)
  {
    match e
    case Succeed(p, message) => OnSuccess(o, s, p, message)
    case SniFails(client) => OnError(o, Finished(s, Pending(client, Connect)), SslHandshakeFailed)
    case Fail(p) => OnError(o, Finished(s, p), ErrorOf(p.op))
    case TimerExpires => s.(waits := s.waits.(live := s.waits.live - 1, fired := s.waits.fired + 1))
    case TimerHandler(refresh) => OnTimer(o, s, refresh)
    case CancelledHandler => s.(waits := s.waits.(cancelled := s.waits.cancelled - 1))
    case Abandon(p) => Finished(s, p)
  }

  function Blank(o: Options, headers: Headers): Feed {
    Feed(o.maxMessages, 0, 0, o.initialDelay, headers, multiset{}, Waits(0, 0, 0), false, "", [], [],
         History([], [], []))
  }

  /** run() up to the event loop. */
  function Start(o: Options, headers: Headers): Feed { ConnectClient(o, Blank(o, headers)) }

  predicate Allowed(o: Options, s: Feed, trace: seq<Event>)
    decreases trace
  {
    trace == [] || (Enabled(s, trace[0]) && Allowed(o, Next(o, s, trace[0]), trace[1..]))
  }

  function Run(o: Options, s: Feed, trace: seq<Event>): Feed
    requires Allowed(o, s, trace)
    decreases trace
  {
    if trace == [] then s else Run(o, Next(o, s, trace[0]), trace[1..])
  }
}
