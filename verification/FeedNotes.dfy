/** What the feed handler logs over whole runs, and where every reconnect wait has gone. */
module FeedNotes {
  import opened Prelude
  import opened EventParser
  import opened WsUrl
  import opened FeedSteps
  import opened FeedProofs

  /** The notes of some kind, in order. */
  function Select(notes: seq<Note>, keep: Note -> bool): seq<Note> {
    if notes == [] then []
    else
      var last := notes[|notes| - 1];
      Select(notes[..|notes| - 1], keep) + if keep(last) then [last] else []
  }

  lemma SelectSnoc(notes: seq<Note>, note: Note, keep: Note -> bool)
    ensures Select(notes + [note], keep) == Select(notes, keep) + if keep(note) then [note] else []
  {
    assert (notes + [note])[..|notes|] == notes;
  }

  // ---------------------------------------------------------------- about messages

  function AboutMessages(): Note -> bool {
    (note: Note) => note.RawMessage? || note.FirstMessage? || note.UnsupportedMessage? || note.ParseFailed?
                    || note.MaxMessagesReached?
  }

  /** What is logged of a message that does not decode. */
  function DecodeNotes(o: Options, w: Wire): seq<Note> {
    match Decode(w)
    case Ok(_) => []
    case Err(UnsupportedType) => [UnsupportedMessage]
    case Err(error) => [ParseFailed(error, if o.includeRawOnParseError then Some(w.text) else None)]
  }

  /** What is logged of message number i, counted from 0. */
  function MessageNotes(o: Options, w: Wire, i: nat): seq<Note> {
    (if o.logRawMessages then [RawMessage(|w.text|, i, w.text)] else []) +
    (if i == 0 then [FirstMessage] else []) +
    DecodeNotes(o, w) +
    (if o.maxMessages == i + 1 then [MaxMessagesReached] else [])
  }

  function AllMessageNotes(o: Options, received: seq<Wire>): seq<Note> {
    if received == [] then []
    else
      var n := |received| - 1;
      AllMessageNotes(o, received[..n]) + MessageNotes(o, received[n], n)
  }

  lemma RecordNoted(o: Options, s: Feed, w: Wire)
    ensures Select(RecordMessage(o, s, w).notes, AboutMessages()) ==
            Select(s.notes, AboutMessages())
            + (if o.logRawMessages then [RawMessage(|w.text|, s.seen, w.text)] else [])
            + (if s.seen == 0 then [FirstMessage] else [])
  {
    var raw := RawMessage(|w.text|, s.seen, w.text);
    var logged := s.notes + if o.logRawMessages then [raw] else [];
    if o.logRawMessages {
      SelectSnoc(s.notes, raw, AboutMessages());
    } else {
      assert logged == s.notes;
      assert Select(s.notes, AboutMessages()) + [] == Select(s.notes, AboutMessages());
    }
    var kept := Select(logged, AboutMessages());
    if s.seen == 0 {
      SelectSnoc(logged, FirstMessage, AboutMessages());
    } else {
      assert logged + [] == logged && kept + [] == kept;
    }
  }

  lemma DispatchNoted(o: Options, s: Feed, w: Wire)
    ensures Select(DispatchMessage(o, s, w).notes, AboutMessages()) ==
            Select(s.notes, AboutMessages()) + DecodeNotes(o, w)
  {
    var t := DispatchMessage(o, s, w);
    if |t.notes| > |s.notes| {
      SelectSnoc(s.notes, t.notes[|s.notes|], AboutMessages());
    } else {
      assert Select(s.notes, AboutMessages()) + [] == Select(s.notes, AboutMessages());
    }
  }

  lemma CountNoted(o: Options, s: Feed)
    ensures Select(CountDown(s).notes, AboutMessages()) ==
            Select(s.notes, AboutMessages()) + if s.remaining == 1 then [MaxMessagesReached] else []
  {
    SelectSnoc(s.notes, MaxMessagesReached, AboutMessages());
    assert Select(s.notes, AboutMessages()) + [] == Select(s.notes, AboutMessages());
  }

  lemma MessageNoted(o: Options, s: Feed, w: Wire)
    requires Budgeted(o, s) && !s.stopped
    ensures Select(OnMessage(o, s, w).notes, AboutMessages()) ==
            Select(s.notes, AboutMessages()) + MessageNotes(o, w, s.seen)
  {
    var recorded := RecordMessage(o, s, w);
    var dispatched := DispatchMessage(o, recorded, w);
    RecordNoted(o, s, w);
    DispatchNoted(o, recorded, w);
    CountNoted(o, dispatched);
    LastOneCounted(o, s, w);
    Regroup(Select(s.notes, AboutMessages()),
            if o.logRawMessages then [RawMessage(|w.text|, s.seen, w.text)] else [],
            if s.seen == 0 then [FirstMessage] else [], DecodeNotes(o, w),
            if o.maxMessages == s.seen + 1 then [MaxMessagesReached] else []);
  }

  lemma LastOneCounted(o: Options, s: Feed, w: Wire)
    requires Budgeted(o, s) && !s.stopped
    ensures DispatchMessage(o, RecordMessage(o, s, w), w).remaining == 1 <==> o.maxMessages == s.seen + 1
  {
  }

  lemma Regroup(a: seq<Note>, b: seq<Note>, c: seq<Note>, d: seq<Note>, e: seq<Note>)
    ensures a + b + c + d + e == a + (b + c + d + e)
  {
  }

  // ---------------------------------------------------------------- about connections

  function AboutLinks(): Note -> bool {
    (note: Note) => note.WsOpen? || note.WsFailed? || note.HeadersNotRefreshed?
  }

  /** The code reported for an operation that fails. */
  function CodeOf(op: Op): WsError {
    match op
    case Resolve => ResolveFailed
    case Connect => ConnectFailed
    case SslHandshake => SslHandshakeFailed
    case WsHandshake => WsHandshakeFailed
    case Read => ReadFailed
    case Write => WriteFailed
  }

  function ConnectNotes(o: Options): seq<Note> {
    if ParseWsUrl(o.wsUrl).Ok? then [] else [WsFailed(InvalidUrl)]
  }

  /** What is logged of one completion. */
  function LinkNotes(o: Options, e: Event): seq<Note> {
    match e
    case Succeed(p, _) => if p.op == WsHandshake then [WsOpen] else []
    case SniFails(_) => [WsFailed(SslHandshakeFailed)]
    case Fail(p) => [WsFailed(CodeOf(p.op))]
    case TimerHandler(refresh) => (if refresh.RefreshFailed? then [HeadersNotRefreshed] else []) + ConnectNotes(o)
    case _ => []
  }

  function AllLinkNotes(o: Options, trace: seq<Event>): seq<Note> {
    if trace == [] then [] else LinkNotes(o, trace[0]) + AllLinkNotes(o, trace[1..])
  }

  /** An error is logged with its code, and a message log has nothing of it. */
  lemma ErrorNoted(o: Options, s: Feed, code: WsError)
    ensures Select(OnError(o, s, code).notes, AboutLinks()) == Select(s.notes, AboutLinks()) + [WsFailed(code)]
    ensures Select(OnError(o, s, code).notes, AboutMessages()) == Select(s.notes, AboutMessages())
  {
    var noted := s.notes + [WsFailed(code)];
    SelectSnoc(s.notes, WsFailed(code), AboutLinks());
    SelectSnoc(s.notes, WsFailed(code), AboutMessages());
    assert Select(s.notes, AboutMessages()) + [] == Select(s.notes, AboutMessages());
    if o.autoReconnect {
      SelectSnoc(noted, ReconnectScheduled(s.backoff), AboutLinks());
      SelectSnoc(noted, ReconnectScheduled(s.backoff), AboutMessages());
      assert Select(noted, AboutLinks()) + [] == Select(noted, AboutLinks());
      assert Select(noted, AboutMessages()) + [] == Select(noted, AboutMessages());
    }
  }

  lemma ConnectNoted(o: Options, s: Feed)
    ensures Select(ConnectClient(o, s).notes, AboutLinks()) == Select(s.notes, AboutLinks()) + ConnectNotes(o)
    ensures Select(ConnectClient(o, s).notes, AboutMessages()) == Select(s.notes, AboutMessages())
  {
    if ParseWsUrl(o.wsUrl).Err? {
      ErrorNoted(o, NewClient(s), InvalidUrl);
    } else {
      assert Select(s.notes, AboutLinks()) + [] == Select(s.notes, AboutLinks());
    }
  }

  lemma TimerNoted(o: Options, s: Feed, refresh: Refresh)
    ensures Select(OnTimer(o, s, refresh).notes, AboutLinks()) ==
            Select(s.notes, AboutLinks()) + LinkNotes(o, TimerHandler(refresh))
    ensures Select(OnTimer(o, s, refresh).notes, AboutMessages()) == Select(s.notes, AboutMessages())
  {
    var due := TimerDue(s, refresh);
    if refresh.RefreshFailed? {
      SelectSnoc(s.notes, HeadersNotRefreshed, AboutLinks());
      SelectSnoc(s.notes, HeadersNotRefreshed, AboutMessages());
      assert Select(s.notes, AboutMessages()) + [] == Select(s.notes, AboutMessages());
      Assoc(Select(s.notes, AboutLinks()), [HeadersNotRefreshed], ConnectNotes(o));
    } else {
      assert due.notes == s.notes && [] + ConnectNotes(o) == ConnectNotes(o);
    }
    ConnectNoted(o, due);
  }

  lemma OpenNoted(o: Options, s: Feed)
    ensures Select(OnOpen(o, s).notes, AboutLinks()) == Select(s.notes, AboutLinks()) + [WsOpen]
    ensures Select(OnOpen(o, s).notes, AboutMessages()) == Select(s.notes, AboutMessages())
  {
    SelectSnoc(s.notes, WsOpen, AboutLinks());
    SelectSnoc(s.notes, WsOpen, AboutMessages());
    assert Select(s.notes, AboutMessages()) + [] == Select(s.notes, AboutMessages());
  }

  lemma RecordNotLinked(o: Options, s: Feed, w: Wire)
    ensures Select(RecordMessage(o, s, w).notes, AboutLinks()) == Select(s.notes, AboutLinks())
  {
    var raw := RawMessage(|w.text|, s.seen, w.text);
    var logged := s.notes + if o.logRawMessages then [raw] else [];
    if o.logRawMessages {
      SelectSnoc(s.notes, raw, AboutLinks());
      assert Select(s.notes, AboutLinks()) + [] == Select(s.notes, AboutLinks());
    } else {
      assert logged == s.notes;
    }
    if s.seen == 0 {
      SelectSnoc(logged, FirstMessage, AboutLinks());
      assert Select(logged, AboutLinks()) + [] == Select(logged, AboutLinks());
    } else {
      assert logged + [] == logged;
    }
  }

  lemma DispatchNotLinked(o: Options, s: Feed, w: Wire)
    ensures Select(DispatchMessage(o, s, w).notes, AboutLinks()) == Select(s.notes, AboutLinks())
  {
    var t := DispatchMessage(o, s, w);
    assert Select(s.notes, AboutLinks()) + [] == Select(s.notes, AboutLinks());
    if |t.notes| > |s.notes| {
      SelectSnoc(s.notes, t.notes[|s.notes|], AboutLinks());
    }
  }

  lemma CountNotLinked(s: Feed)
    ensures Select(CountDown(s).notes, AboutLinks()) == Select(s.notes, AboutLinks())
  {
    SelectSnoc(s.notes, MaxMessagesReached, AboutLinks());
    assert Select(s.notes, AboutLinks()) + [] == Select(s.notes, AboutLinks());
  }

  lemma MessageNotLinked(o: Options, s: Feed, w: Wire)
    ensures Select(OnMessage(o, s, w).notes, AboutLinks()) == Select(s.notes, AboutLinks())
  {
    var recorded := RecordMessage(o, s, w);
    var dispatched := DispatchMessage(o, recorded, w);
    RecordNotLinked(o, s, w);
    DispatchNotLinked(o, recorded, w);
    CountNotLinked(dispatched);
  }

  // ---------------------------------------------------------------- runs

  function OneMessageNote(o: Options, e: Event, i: nat): seq<Note> {
    if OneDelivered(e) == [] then [] else MessageNotes(o, e.message, i)
  }

  lemma SuccessNoted(o: Options, s: Feed, p: Pending, w: Wire)
    requires Budgeted(o, s) && !s.stopped
    ensures Select(OnSuccess(o, s, p, w).notes, AboutLinks()) ==
            Select(s.notes, AboutLinks()) + LinkNotes(o, Succeed(p, w))
    ensures Select(OnSuccess(o, s, p, w).notes, AboutMessages()) ==
            Select(s.notes, AboutMessages()) + OneMessageNote(o, Succeed(p, w), s.seen)
  {
    var done := Finished(s, p);
    assert Select(s.notes, AboutLinks()) + [] == Select(s.notes, AboutLinks());
    assert Select(s.notes, AboutMessages()) + [] == Select(s.notes, AboutMessages());
    if p.op == Read {
      MessageNoted(o, done, w);
      MessageNotLinked(o, done, w);
    } else if p.op == WsHandshake {
      OpenNoted(o, done);
    }
  }

  lemma NextNoted(o: Options, s: Feed, e: Event)
    requires Budgeted(o, s) && Enabled(s, e)
    ensures Select(Next(o, s, e).notes, AboutLinks()) == Select(s.notes, AboutLinks()) + LinkNotes(o, e)
    ensures Select(Next(o, s, e).notes, AboutMessages()) ==
            Select(s.notes, AboutMessages()) + OneMessageNote(o, e, s.seen)
  {
    assert Select(s.notes, AboutLinks()) + [] == Select(s.notes, AboutLinks());
    assert Select(s.notes, AboutMessages()) + [] == Select(s.notes, AboutMessages());
    match e
    case Succeed(p, message) => SuccessNoted(o, s, p, message);
    case SniFails(client) => ErrorNoted(o, Finished(s, Pending(client, Connect)), SslHandshakeFailed);
    case Fail(p) => ErrorNoted(o, Finished(s, p), ErrorOf(p.op));
    case TimerHandler(refresh) => TimerNoted(o, s, refresh);
    case _ =>
  }

  lemma {:induction false} RunNoted(o: Options, s: Feed, trace: seq<Event>)
    requires Inv(o, s) && Allowed(o, s, trace)
    requires Select(s.notes, AboutMessages()) == AllMessageNotes(o, s.history.received)
    ensures var t := Run(o, s, trace);
            && Select(t.notes, AboutMessages()) == AllMessageNotes(o, t.history.received)
            && Select(t.notes, AboutLinks()) == Select(s.notes, AboutLinks()) + AllLinkNotes(o, trace)
    decreases trace
  {
    if trace == [] {
      assert Select(s.notes, AboutLinks()) + [] == Select(s.notes, AboutLinks());
    } else {
      var e, t := trace[0], Next(o, s, trace[0]);
      NextNoted(o, s, e);
      NextRecords(o, s, e);
      NextKeeps(o, s, e);
      ReceivedNoted(o, s.history.received, e);
      RunNoted(o, t, trace[1..]);
      Assoc(Select(s.notes, AboutLinks()), LinkNotes(o, e), AllLinkNotes(o, trace[1..]));
    }
  }

  lemma ReceivedNoted(o: Options, received: seq<Wire>, e: Event)
    ensures AllMessageNotes(o, received + OneDelivered(e)) ==
            AllMessageNotes(o, received) + OneMessageNote(o, e, |received|)
  {
    if OneDelivered(e) == [] {
      assert received + [] == received;
      assert AllMessageNotes(o, received) + [] == AllMessageNotes(o, received);
    } else {
      assert (received + [e.message])[..|received|] == received;
    }
  }

  /**
   * What is logged, over whole runs. Of each message delivered, in order: its raw text and
   * number if asked for, that it was the first, what is wrong with it if it does not decode,
   * with its text if asked for, and that it was the last. Of the connections: each opening,
   * each failure under the code of its operation, a URL that does not parse at each connect,
   * and each failed refresh of the headers.
   */
  lemma LogsFollowTrace(o: Options, headers: Headers, trace: seq<Event>)
    requires Allowed(o, Start(o, headers), trace)
    ensures var s := Run(o, Start(o, headers), trace);
            && Select(s.notes, AboutMessages()) == AllMessageNotes(o, Delivered(trace))
            && Select(s.notes, AboutLinks()) == ConnectNotes(o) + AllLinkNotes(o, trace)
  {
    var start := Start(o, headers);
    StartHolds(o, headers);
    StartRecords(o, headers);
    ConnectNoted(o, Blank(o, headers));
    assert [] + ConnectNotes(o) == ConnectNotes(o);
    RunNoted(o, start, trace);
    ReceivesDelivered(o, start, trace);
    assert [] + Delivered(trace) == Delivered(trace);
  }

  // ---------------------------------------------------------------- the waits

  /** The waits ever started. */
  function Scheduled(notes: seq<Note>): nat {
    if notes == [] then 0
    else Scheduled(notes[..|notes| - 1]) + if notes[|notes| - 1].ReconnectScheduled? then 1 else 0
  }

  /** The handlers of waits that have run. */
  function Handled(trace: seq<Event>): nat {
    if trace == [] then 0
    else (if trace[0].TimerHandler? || trace[0].CancelledHandler? then 1 else 0) + Handled(trace[1..])
  }

  function AllWaits(s: Feed): nat { s.waits.live + s.waits.fired + s.waits.cancelled }

  lemma ScheduledSnoc(notes: seq<Note>, note: Note)
    ensures Scheduled(notes + [note]) == Scheduled(notes) + if note.ReconnectScheduled? then 1 else 0
  {
    assert (notes + [note])[..|notes|] == notes;
  }

  lemma ErrorSchedules(o: Options, s: Feed, code: WsError)
    ensures var t := OnError(o, s, code);
            Scheduled(t.notes) - Scheduled(s.notes) == AllWaits(t) - AllWaits(s) == if o.autoReconnect then 1 else 0
  {
    ScheduledSnoc(s.notes, WsFailed(code));
    ScheduledSnoc(s.notes + [WsFailed(code)], ReconnectScheduled(s.backoff));
  }

  lemma RecordSchedulesNone(o: Options, s: Feed, w: Wire)
    ensures Scheduled(RecordMessage(o, s, w).notes) == Scheduled(s.notes) && RecordMessage(o, s, w).waits == s.waits
  {
    var raw := RawMessage(|w.text|, s.seen, w.text);
    var logged := s.notes + if o.logRawMessages then [raw] else [];
    ScheduledSnoc(s.notes, raw);
    ScheduledSnoc(logged, FirstMessage);
    assert s.notes + [] == s.notes && logged + [] == logged;
  }

  lemma DispatchSchedulesNone(o: Options, s: Feed, w: Wire)
    ensures Scheduled(DispatchMessage(o, s, w).notes) == Scheduled(s.notes)
    ensures DispatchMessage(o, s, w).waits == s.waits
  {
    var t := DispatchMessage(o, s, w);
    if |t.notes| > |s.notes| {
      ScheduledSnoc(s.notes, t.notes[|s.notes|]);
    }
  }

  lemma CountSchedulesNone(s: Feed)
    ensures Scheduled(CountDown(s).notes) == Scheduled(s.notes) && CountDown(s).waits == s.waits
  {
    ScheduledSnoc(s.notes, MaxMessagesReached);
  }

  lemma MessageSchedulesNone(o: Options, s: Feed, w: Wire)
    ensures var t := OnMessage(o, s, w); Scheduled(t.notes) == Scheduled(s.notes) && t.waits == s.waits
  {
    var recorded := RecordMessage(o, s, w);
    RecordSchedulesNone(o, s, w);
    DispatchSchedulesNone(o, recorded, w);
    CountSchedulesNone(DispatchMessage(o, recorded, w));
  }

  lemma TimerSchedules(o: Options, s: Feed, refresh: Refresh)
    requires s.waits.fired > 0
    ensures var t := OnTimer(o, s, refresh); Scheduled(t.notes) - Scheduled(s.notes) == AllWaits(t) - AllWaits(s) + 1
  {
    var due := TimerDue(s, refresh);
    ScheduledSnoc(s.notes, HeadersNotRefreshed);
    if ParseWsUrl(o.wsUrl).Err? {
      ErrorSchedules(o, NewClient(due), InvalidUrl);
    }
  }

  lemma SuccessSchedules(o: Options, s: Feed, p: Pending, w: Wire)
    ensures var t := OnSuccess(o, s, p, w); Scheduled(t.notes) == Scheduled(s.notes) && AllWaits(t) == AllWaits(s)
  {
    if p.op == Read {
      MessageSchedulesNone(o, Finished(s, p), w);
    } else if p.op == WsHandshake {
      ScheduledSnoc(s.notes, WsOpen);
    }
  }

  lemma NextSchedules(o: Options, s: Feed, e: Event)
    requires Enabled(s, e)
    ensures var t := Next(o, s, e);
            Scheduled(t.notes) - Scheduled(s.notes) ==
            AllWaits(t) - AllWaits(s) + if e.TimerHandler? || e.CancelledHandler? then 1 else 0
  {
    match e
    case Succeed(p, message) => SuccessSchedules(o, s, p, message);
    case SniFails(client) => ErrorSchedules(o, Finished(s, Pending(client, Connect)), SslHandshakeFailed);
    case Fail(p) => ErrorSchedules(o, Finished(s, p), ErrorOf(p.op));
    case TimerHandler(refresh) => TimerSchedules(o, s, refresh);
    case _ =>
  }

  lemma {:induction false} RunSchedules(o: Options, s: Feed, trace: seq<Event>)
    requires Allowed(o, s, trace)
    ensures var t := Run(o, s, trace);
            Scheduled(t.notes) - Scheduled(s.notes) == AllWaits(t) - AllWaits(s) + Handled(trace)
    decreases trace
  {
    if trace != [] {
      NextSchedules(o, s, trace[0]);
      RunSchedules(o, Next(o, s, trace[0]), trace[1..]);
    }
  }

  /** Conservation of waits: each one ever scheduled is live, expired, cancelled, or its handler has run. */
  lemma WaitsConserved(o: Options, headers: Headers, trace: seq<Event>)
    requires Allowed(o, Start(o, headers), trace)
    ensures var s := Run(o, Start(o, headers), trace);
            Scheduled(s.notes) == s.waits.live + s.waits.fired + s.waits.cancelled + Handled(trace)
  {
    if ParseWsUrl(o.wsUrl).Err? {
      ErrorSchedules(o, NewClient(Blank(o, headers)), InvalidUrl);
    }
    RunSchedules(o, Start(o, headers), trace);
  }

  // ---------------------------------------------------------------- what can come next

  /** Nothing is ruled out: until the loop is stopped each operation can succeed and fail, each wait end. */
  lemma EveryCompletionPossible(s: Feed, p: Pending, message: Wire, refresh: Refresh)
    requires !s.stopped
    ensures p in s.pending <==> Enabled(s, Succeed(p, message))
    ensures p in s.pending <==> Enabled(s, Fail(p))
    ensures s.waits.live > 0 <==> Enabled(s, TimerExpires)
    ensures s.waits.fired > 0 <==> Enabled(s, TimerHandler(refresh))
    ensures s.waits.cancelled > 0 <==> Enabled(s, CancelledHandler)
  {
  }
}
