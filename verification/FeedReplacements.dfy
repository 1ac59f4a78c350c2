/**
 * Clients and their replacement. The source destroys a replaced client, so the runs that
 * count here are those in which only the current client's operations complete.
 */
module FeedReplacements {
  import opened Prelude
  import opened EventParser
  import opened WsUrl
  import opened FeedSteps
  import opened FeedProofs
  import opened FeedRuns

  /** The event completes no operation of a replaced client. */
  predicate Own(client: nat, e: Event) {
    match e
    case Succeed(p, _) => p.client == client
    case SniFails(c) => c == client
    case Fail(p) => p.client == client
    case _ => true
  }

  /** Nor does any event of the trace. */
  predicate OwnRun(client: nat, trace: seq<Event>)
    decreases trace
  {
    trace == [] || (Own(client, trace[0]) && OwnRun(ClientNow(client, trace[0]), trace[1..]))
  }

  // ---------------------------------------------------------------- the life of a client

  /** The current client: on its way, given up, or connected with a read and a write outstanding or not. */
  datatype Link = Linking | Down | Up(reading: bool, writing: bool)

  function NewLink(o: Options): Link { if ParseWsUrl(o.wsUrl).Ok? then Linking else Down }

  function LinkAfter(o: Options, link: Link, e: Event): Link {
    match e
    case TimerHandler(_) => NewLink(o)
    case Succeed(p, _) =>
      if p.op == WsHandshake then Up(true, o.subscribeCmd != "")
      else if p.op == Write && link.Up? then link.(writing := false)
      else link
    case Fail(p) =>
      if p.op == Read && link.Up? then link.(reading := false)
      else if p.op == Write && link.Up? then link.(writing := false)
      else Down
    case SniFails(_) => Down
    case _ => link
  }

  /** The link a trace leads to. */
  function LinkOf(o: Options, link: Link, trace: seq<Event>): Link
    decreases trace
  {
    if trace == [] then link else LinkOf(o, LinkAfter(o, link, trace[0]), trace[1..])
  }

  /** How many operations before the first read are outstanding on the current client. */
  function Chain(s: Feed): nat {
    s.pending[Pending(s.client, Resolve)] + s.pending[Pending(s.client, Connect)] +
    s.pending[Pending(s.client, SslHandshake)] + s.pending[Pending(s.client, WsHandshake)]
  }

  /** The outstanding operations of the current client are those of its link, and no later client has any. */
  predicate Fits(s: Feed, link: Link) {
    && Chain(s) == (if link.Linking? then 1 else 0)
    && s.pending[Pending(s.client, Read)] == (if link.Up? && link.reading then 1 else 0)
    && s.pending[Pending(s.client, Write)] == (if link.Up? && link.writing then 1 else 0)
    && forall p :: p in s.pending ==> p.client <= s.client
  }

  lemma ErrorFits(o: Options, s: Feed, code: WsError)
    ensures OnError(o, s, code).pending == s.pending && OnError(o, s, code).client == s.client
  {
  }

  lemma ReplacedFits(o: Options, s: Feed, link: Link, refresh: Refresh)
    requires Fits(s, link)
    ensures Fits(OnTimer(o, s, refresh), NewLink(o))
    ensures OnTimer(o, s, refresh).client == s.client + 1
    ensures forall op :: OnTimer(o, s, refresh).pending[Pending(s.client, op)] == s.pending[Pending(s.client, op)]
  {
    var made := NewClient(TimerDue(s, refresh));
    assert forall op :: Pending(made.client, op) !in s.pending;
    if ParseWsUrl(o.wsUrl).Err? {
      ErrorFits(o, made, InvalidUrl);
    }
  }

  lemma FailureFits(o: Options, s: Feed, link: Link, p: Pending, code: WsError)
    requires Fits(s, link) && p in s.pending && p.client == s.client
    ensures Fits(OnError(o, Finished(s, p), code), LinkAfter(o, link, Fail(p)))
  {
    ErrorFits(o, Finished(s, p), code);
  }

  lemma ReadFits(o: Options, s: Feed, link: Link, message: Wire)
    requires Fits(s, link) && Pending(s.client, Read) in s.pending
    ensures Fits(OnSuccess(o, s, Pending(s.client, Read), message), link)
  {
    var p := Pending(s.client, Read);
    MessageRecords(o, Finished(s, p), message);
    assert OnSuccess(o, s, p, message).pending == s.pending - multiset{p} + multiset{p} == s.pending;
  }

  lemma OpeningFits(o: Options, s: Feed, link: Link, message: Wire)
    requires Fits(s, link) && Pending(s.client, WsHandshake) in s.pending
    ensures Fits(OnSuccess(o, s, Pending(s.client, WsHandshake), message), Up(true, o.subscribeCmd != ""))
  {
    var done := Finished(s, Pending(s.client, WsHandshake));
    assert Chain(done) == 0;
    assert OnOpen(o, done).client == s.client;
  }

  lemma StageFits(o: Options, s: Feed, link: Link, op: Op, message: Wire)
    requires Fits(s, link) && Pending(s.client, op) in s.pending
    requires op == Resolve || op == Connect || op == SslHandshake
    ensures Fits(OnSuccess(o, s, Pending(s.client, op), message), link)
  {
    var p, next := Pending(s.client, op), Pending(s.client, NextOp(op));
    var t := OnSuccess(o, s, p, message);
    assert t == s.(pending := s.pending - multiset{p} + multiset{next});
    assert Chain(Finished(s, p)) == 0 && link.Linking?;
  }

  lemma SuccessFits(o: Options, s: Feed, link: Link, p: Pending, message: Wire)
    requires Fits(s, link) && p in s.pending && p.client == s.client
    ensures Fits(OnSuccess(o, s, p, message), LinkAfter(o, link, Succeed(p, message)))
  {
    match p.op
    case Read => ReadFits(o, s, link, message);
    case WsHandshake => OpeningFits(o, s, link, message);
    case Write => assert OnSuccess(o, s, p, message) == Finished(s, p);
    case _ => StageFits(o, s, link, p.op, message);
  }

  lemma NextFits(o: Options, s: Feed, link: Link, e: Event)
    requires Fits(s, link) && Enabled(s, e) && Own(s.client, e)
    ensures Fits(Next(o, s, e), LinkAfter(o, link, e))
  {
    match e
    case Succeed(p, message) => SuccessFits(o, s, link, p, message);
    case SniFails(client) => FailureFits(o, s, link, Pending(client, Connect), SslHandshakeFailed);
    case Fail(p) => FailureFits(o, s, link, p, ErrorOf(p.op));
    case TimerHandler(refresh) => ReplacedFits(o, s, link, refresh);
    case _ =>
  }

  lemma {:induction false} RunFits(o: Options, s: Feed, link: Link, trace: seq<Event>)
    requires Fits(s, link) && Allowed(o, s, trace) && OwnRun(s.client, trace)
    ensures Fits(Run(o, s, trace), LinkOf(o, link, trace))
    decreases trace
  {
    if trace != [] {
      NextFits(o, s, link, trace[0]);
      NextRecords(o, s, trace[0]);
      RunFits(o, Next(o, s, trace[0]), LinkAfter(o, link, trace[0]), trace[1..]);
    }
  }

  lemma StartFits(o: Options, headers: Headers)
    ensures Fits(Start(o, headers), NewLink(o)) && Start(o, headers).client == 1
  {
    var made := NewClient(Blank(o, headers));
    if ParseWsUrl(o.wsUrl).Err? {
      ErrorFits(o, made, InvalidUrl);
    }
  }

  /**
   * What a replacement leaves behind. When the reconnect timer's handler runs, the old
   * client's operations still outstanding are exactly those of its link: one before the
   * first read if it was still connecting, its read unless that failed, its write unless
   * that completed. So nothing is left if and only if it gave up while connecting, or its
   * read failed and its write, if it had one, completed.
   */
  lemma ReplacementLeavesIff(o: Options, headers: Headers, trace: seq<Event>, refresh: Refresh)
    requires Allowed(o, Start(o, headers), trace) && OwnRun(1, trace)
    requires Enabled(Run(o, Start(o, headers), trace), TimerHandler(refresh))
    ensures var s := Run(o, Start(o, headers), trace);
            var t := Next(o, s, TimerHandler(refresh));
            var link := LinkOf(o, NewLink(o), trace);
            && t.client == s.client + 1
            && (Pending(s.client, Read) in t.pending <==> link.Up? && link.reading)
            && (Pending(s.client, Write) in t.pending <==> link.Up? && link.writing)
            && ((exists op :: Pending(s.client, op) in t.pending) <==>
                link.Linking? || (link.Up? && (link.reading || link.writing)))
  {
    var start := Start(o, headers);
    var link := LinkOf(o, NewLink(o), trace);
    StartFits(o, headers);
    RunFits(o, start, NewLink(o), trace);
    var s := Run(o, start, trace);
    ReplacedFits(o, s, link, refresh);
    OutstandingIff(s, link);
    var t := OnTimer(o, s, refresh);
    assert forall op :: Pending(s.client, op) in t.pending <==> Pending(s.client, op) in s.pending;
  }

  lemma OutstandingIff(s: Feed, link: Link)
    requires Fits(s, link)
    ensures (exists op :: Pending(s.client, op) in s.pending) <==>
            link.Linking? || (link.Up? && (link.reading || link.writing))
  {
    if link.Linking? {
      assert Pending(s.client, Resolve) in s.pending || Pending(s.client, Connect) in s.pending
             || Pending(s.client, SslHandshake) in s.pending || Pending(s.client, WsHandshake) in s.pending;
    } else if link.Up? && link.reading {
      assert Pending(s.client, Read) in s.pending;
    } else if link.Up? && link.writing {
      assert Pending(s.client, Write) in s.pending;
    } else {
      forall op
        ensures Pending(s.client, op) !in s.pending
      {
        assert s.pending[Pending(s.client, Resolve)] == 0 && s.pending[Pending(s.client, Connect)] == 0;
        assert s.pending[Pending(s.client, SslHandshake)] == 0 && s.pending[Pending(s.client, WsHandshake)] == 0;
        assert s.pending[Pending(s.client, Read)] == 0 && s.pending[Pending(s.client, Write)] == 0;
        assert op == Resolve || op == Connect || op == SslHandshake || op == WsHandshake || op == Read || op == Write;
      }
    }
  }

  // ---------------------------------------------------------------- the subscribe command

  /** Each opening is by the then-current client, later ones by later clients, none before first. */
  predicate InOrder(openings: seq<Opening>, first: nat) {
    && (forall i :: 0 <= i < |openings| ==> first <= openings[i].client == openings[i].current)
    && (forall i, j :: 0 <= i < j < |openings| ==> openings[i].client < openings[j].client)
  }

  /** The first client that can still open. */
  function NextOpener(client: nat, link: Link): nat { if link.Linking? then client else client + 1 }

  lemma OpenerMoves(o: Options, s: Feed, link: Link, e: Event)
    requires Fits(s, link) && Enabled(s, e) && Own(s.client, e)
    ensures var after := NextOpener(ClientNow(s.client, e), LinkAfter(o, link, e));
            if OneOpening(s.client, e) == [] then NextOpener(s.client, link) <= after
            else
              && OneOpening(s.client, e) == [Opening(s.client, s.client)]
              && NextOpener(s.client, link) == s.client && after == s.client + 1
  {
    if e.Succeed? && e.p.op == WsHandshake {
      assert s.pending[Pending(s.client, WsHandshake)] > 0;
    }
  }

  lemma InOrderCons(opening: Opening, others: seq<Opening>)
    requires opening.client == opening.current && InOrder(others, opening.client + 1)
    ensures InOrder([opening] + others, opening.client)
  {
  }

  lemma InOrderGrows(client: nat, e: Event, first: nat, after: nat, others: seq<Opening>)
    requires InOrder(others, after)
    requires if OneOpening(client, e) == [] then first <= after
             else OneOpening(client, e) == [Opening(client, client)] && first == client && after == client + 1
    ensures InOrder(OneOpening(client, e) + others, first)
  {
    if OneOpening(client, e) == [] {
      assert [] + others == others;
    } else {
      InOrderCons(Opening(client, client), others);
    }
  }

  lemma {:induction false} OpensInOrder(o: Options, s: Feed, link: Link, trace: seq<Event>)
    requires Fits(s, link) && Allowed(o, s, trace) && OwnRun(s.client, trace)
    ensures InOrder(Openings(s.client, trace), NextOpener(s.client, link))
    decreases trace
  {
    if trace != [] {
      var e, t, after := trace[0], Next(o, s, trace[0]), LinkAfter(o, link, trace[0]);
      NextFits(o, s, link, e);
      NextRecords(o, s, e);
      OpenerMoves(o, s, link, e);
      OpensInOrder(o, t, after, trace[1..]);
      var others := Openings(t.client, trace[1..]);
      InOrderGrows(s.client, e, NextOpener(s.client, link), NextOpener(t.client, after), others);
    }
  }

  /**
   * Every client that opens is sent the subscribe command, exactly once, and no other client
   * is, as long as only the current client's operations complete.
   */
  lemma CommandReachesOpener(o: Options, headers: Headers, trace: seq<Event>)
    requires Allowed(o, Start(o, headers), trace) && OwnRun(1, trace) && o.subscribeCmd != ""
    ensures var sent := Run(o, Start(o, headers), trace).history.sent;
            var openings := Openings(1, trace);
            && |sent| == |openings|
            && (forall i :: 0 <= i < |sent| ==> sent[i] == Sent(openings[i].client, o.subscribeCmd))
            && (forall i, j :: 0 <= i < j < |sent| ==> sent[i].client < sent[j].client)
  {
    StartFits(o, headers);
    OpensInOrder(o, Start(o, headers), NewLink(o), trace);
    Resubscribes(o, headers, trace);
  }

  // ---------------------------------------------------------------- replaced without an error of its own

  /** No operation fails and no client is replaced. */
  predicate Quiet(trace: seq<Event>) {
    forall i :: 0 <= i < |trace| ==> !trace[i].Fail? && !trace[i].SniFails? && !trace[i].TimerHandler?
  }

  function Waiting(s: Feed): nat { s.waits.live + s.waits.fired }

  lemma SuccessKeepsWaits(o: Options, s: Feed, p: Pending, message: Wire)
    ensures OnSuccess(o, s, p, message).waits == s.waits
  {
    if p.op == Read {
      assert OnMessage(o, Finished(s, p), message).waits == s.waits;
    }
  }

  lemma {:induction false} QuietKeepsWaiting(o: Options, s: Feed, trace: seq<Event>)
    requires Allowed(o, s, trace) && Quiet(trace)
    ensures Waiting(Run(o, s, trace)) == Waiting(s)
    decreases trace
  {
    if trace != [] {
      if trace[0].Succeed? {
        SuccessKeepsWaits(o, s, trace[0].p, trace[0].message);
      }
      assert Waiting(Next(o, s, trace[0])) == Waiting(s);
      QuietKeepsWaiting(o, Next(o, s, trace[0]), trace[1..]);
    }
  }

  /**
   * A client can be replaced before any operation fails if and only if a wait is live or due
   * when it starts, one more than the wait that led to it: an error came after that wait had
   * expired and before its handler ran, when expires_after no longer cancels it.
   */
  lemma ReplacedInHealthIff(o: Options, s: Feed)
    requires !s.stopped
    ensures (exists rest :: Allowed(o, s, rest) && Quiet(rest) && Enabled(Run(o, s, rest), TimerHandler(NotSet))) <==>
            Waiting(s) > 0
  {
    if s.waits.fired > 0 {
      assert Allowed(o, s, []) && Quiet([]) && Enabled(Run(o, s, []), TimerHandler(NotSet));
    } else if s.waits.live > 0 {
      var rest := [TimerExpires];
      RunSnoc(o, s, [], TimerExpires);
      assert [] + [TimerExpires] == rest;
      assert Allowed(o, s, rest) && Quiet(rest) && Enabled(Run(o, s, rest), TimerHandler(NotSet));
    } else {
      forall rest | Allowed(o, s, rest) && Quiet(rest)
        ensures !Enabled(Run(o, s, rest), TimerHandler(NotSet))
      {
        QuietKeepsWaiting(o, s, rest);
      }
    }
  }

  // ---------------------------------------------------------------- runs

  const NO_MESSAGE := Wire("", None)

  /** The states that runs of current clients lead to. */
  ghost function OwnReachable(o: Options, headers: Headers): Feed -> bool {
    (s: Feed) => exists trace ::
      Allowed(o, Start(o, headers), trace) && OwnRun(1, trace) && s == Run(o, Start(o, headers), trace)
  }

  /** The set of states holds the successors of its members by events of current clients. */
  ghost predicate OwnClosed(o: Options, reach: Feed -> bool) {
    forall s, e | reach(s) && Enabled(s, e) && Own(s.client, e) :: reach(Next(o, s, e))
  }

  lemma {:induction false} OwnRunSnoc(o: Options, s: Feed, trace: seq<Event>, e: Event)
    requires Allowed(o, s, trace) && OwnRun(s.client, trace) && Own(Run(o, s, trace).client, e)
    ensures OwnRun(s.client, trace + [e])
    decreases trace
  {
    if trace == [] {
      assert [] + [e] == [e] && [e][1..] == [];
    } else {
      NextRecords(o, s, trace[0]);
      OwnRunSnoc(o, Next(o, s, trace[0]), trace[1..], e);
      assert (trace + [e])[1..] == trace[1..] + [e];
    }
  }

  lemma OwnReachableStep(o: Options, headers: Headers, s: Feed, e: Event)
    requires OwnReachable(o, headers)(s) && Enabled(s, e) && Own(s.client, e)
    ensures OwnReachable(o, headers)(Next(o, s, e))
  {
    var start := Start(o, headers);
    StartFits(o, headers);
    var trace :| Allowed(o, start, trace) && OwnRun(1, trace) && s == Run(o, start, trace);
    RunSnoc(o, start, trace, e);
    OwnRunSnoc(o, start, trace, e);
    var longer := trace + [e];
    assert Allowed(o, start, longer) && OwnRun(1, longer) && Next(o, s, e) == Run(o, start, longer);
  }

  lemma OwnReachableClosed(o: Options, headers: Headers)
    ensures OwnClosed(o, OwnReachable(o, headers))
  {
    forall s, e | OwnReachable(o, headers)(s) && Enabled(s, e) && Own(s.client, e)
      ensures OwnReachable(o, headers)(Next(o, s, e))
    {
      OwnReachableStep(o, headers, s, e);
    }
  }

  lemma StartReachable(o: Options, headers: Headers)
    ensures OwnReachable(o, headers)(Start(o, headers))
  {
    var start := Start(o, headers);
    assert Allowed(o, start, []) && OwnRun(1, []) && start == Run(o, start, []);
  }

  /** One operation on the way to a connection succeeds. */
  lemma Advances(o: Options, reach: Feed -> bool, s: Feed, op: Op)
    requires OwnClosed(o, reach) && reach(s) && !s.stopped && Pending(s.client, op) in s.pending
    requires op == Resolve || op == Connect || op == SslHandshake
    ensures var p := Pending(s.client, op);
            reach(s.(pending := s.pending - multiset{p} + multiset{Pending(s.client, NextOp(op))}))
  {
    var e := Succeed(Pending(s.client, op), NO_MESSAGE);
    assert Enabled(s, e) && Own(s.client, e);
    assert reach(Next(o, s, e));
  }

  /** The client resolves, connects and shakes hands; its websocket handshake is next. */
  lemma Approaches(o: Options, reach: Feed -> bool, s: Feed) returns (t: Feed)
    requires OwnClosed(o, reach) && reach(s) && !s.stopped && Pending(s.client, Resolve) in s.pending
    ensures reach(t)
    ensures var rest := s.pending - multiset{Pending(s.client, Resolve)};
            t == s.(pending := rest + multiset{Pending(s.client, WsHandshake)})
  {
    var rest := s.pending - multiset{Pending(s.client, Resolve)};
    var connecting := s.(pending := rest + multiset{Pending(s.client, Connect)});
    var securing := s.(pending := rest + multiset{Pending(s.client, SslHandshake)});
    Advances(o, reach, s, Resolve);
    Advances(o, reach, connecting, Connect);
    assert connecting.pending - multiset{Pending(s.client, Connect)} == rest;
    Advances(o, reach, securing, SslHandshake);
    assert securing.pending - multiset{Pending(s.client, SslHandshake)} == rest;
    t := s.(pending := rest + multiset{Pending(s.client, WsHandshake)});
  }

  /** The first client opens. */
  lemma FirstOpens(o: Options, reach: Feed -> bool, s: Feed) returns (t: Feed)
    requires OwnClosed(o, reach) && reach(s) && !s.stopped && s.client == 1 && o.subscribeCmd != ""
    requires s.pending == multiset{Pending(1, Resolve)}
    ensures reach(t) && !t.stopped && t.client == 1 && t.waits == s.waits
    ensures t.history.sent == s.history.sent + [Sent(1, o.subscribeCmd)]
    ensures t.pending == multiset{Pending(1, Read), Pending(1, Write)}
  {
    t := Approaches(o, reach, s);
    assert t.pending == multiset{Pending(1, WsHandshake)};
    var e := Succeed(Pending(1, WsHandshake), NO_MESSAGE);
    assert Enabled(t, e) && Own(t.client, e);
    t := Next(o, t, e);
  }

  lemma Expires(o: Options, reach: Feed -> bool, s: Feed) returns (t: Feed)
    requires OwnClosed(o, reach) && reach(s) && !s.stopped && s.waits.live > 0
    ensures reach(t) && t == s.(waits := s.waits.(live := s.waits.live - 1, fired := s.waits.fired + 1))
  {
    assert Enabled(s, TimerExpires) && Own(s.client, TimerExpires);
    t := Next(o, s, TimerExpires);
  }

  /** The handler of an expired wait runs and the next client starts. */
  lemma Handles(o: Options, reach: Feed -> bool, s: Feed) returns (t: Feed)
    requires OwnClosed(o, reach) && reach(s) && !s.stopped && s.waits.fired > 0 && ParseWsUrl(o.wsUrl).Ok?
    ensures reach(t) && !t.stopped && t.client == s.client + 1 && t.history.sent == s.history.sent
    ensures t.pending == s.pending + multiset{Pending(t.client, Resolve)}
    ensures t.waits == s.waits.(fired := s.waits.fired - 1)
  {
    assert Enabled(s, TimerHandler(NotSet)) && Own(s.client, TimerHandler(NotSet));
    t := Next(o, s, TimerHandler(NotSet));
  }

  lemma Reconnects(o: Options, reach: Feed -> bool, s: Feed) returns (t: Feed)
    requires OwnClosed(o, reach) && reach(s) && !s.stopped && s.waits.live > 0 && ParseWsUrl(o.wsUrl).Ok?
    ensures reach(t) && !t.stopped && t.client == s.client + 1 && t.history.sent == s.history.sent
    ensures t.pending == s.pending + multiset{Pending(t.client, Resolve)}
  {
    t := Expires(o, reach, s);
    t := Handles(o, reach, t);
  }

  /** An operation of the current client fails. */
  lemma Fails(o: Options, reach: Feed -> bool, s: Feed, op: Op) returns (t: Feed)
    requires OwnClosed(o, reach) && reach(s) && !s.stopped && Pending(s.client, op) in s.pending && o.autoReconnect
    ensures reach(t) && !t.stopped && t.client == s.client && t.history.sent == s.history.sent
    ensures t.pending == s.pending - multiset{Pending(s.client, op)}
    ensures t.waits == Waits(1, s.waits.fired, s.waits.cancelled + s.waits.live)
  {
    assert Enabled(s, Fail(Pending(s.client, op))) && Own(s.client, Fail(Pending(s.client, op)));
    t := Next(o, s, Fail(Pending(s.client, op)));
  }

  /**
   * A replacement that leaves an operation behind: the first client's read fails, and its
   * write is still outstanding when the second client is the current one.
   */
  lemma WriteLeftBehind(o: Options, headers: Headers) returns (s: Feed)
    requires o.autoReconnect && o.subscribeCmd != "" && ParseWsUrl(o.wsUrl).Ok?
    ensures OwnReachable(o, headers)(s) && !s.stopped && s.client == 2
    ensures s.pending == multiset{Pending(1, Write), Pending(2, Resolve)}
    ensures s.history.sent == [Sent(1, o.subscribeCmd)]
  {
    var reach := OwnReachable(o, headers);
    OwnReachableClosed(o, headers);
    StartReachable(o, headers);
    s := FirstOpens(o, reach, Start(o, headers));
    s := Fails(o, reach, s, Read);
    s := Reconnects(o, reach, s);
  }

  /** The first client's write fails between its read's wait expiring and the handler running. */
  lemma TwoWaits(o: Options, reach: Feed -> bool, start: Feed) returns (s: Feed)
    requires OwnClosed(o, reach) && reach(start) && !start.stopped && start.client == 1
    requires start.pending == multiset{Pending(1, Resolve)}
    requires o.autoReconnect && o.subscribeCmd != "" && ParseWsUrl(o.wsUrl).Ok?
    ensures reach(s) && !s.stopped && s.client == 2 && s.waits.live == 1
    ensures s.pending == multiset{Pending(2, Resolve)}
  {
    s := FirstOpens(o, reach, start);
    s := Fails(o, reach, s, Read);
    s := Expires(o, reach, s);
    assert Pending(1, Write) in s.pending;
    s := Fails(o, reach, s, Write);
    s := Handles(o, reach, s);
  }

  /**
   * One connection lost, two replacements: the first client's read and write both fail, and
   * the third client replaces the second, which has reported no error and still resolves.
   */
  lemma ReconnectsTwice(o: Options, headers: Headers) returns (second: Feed, third: Feed)
    requires o.autoReconnect && o.subscribeCmd != "" && ParseWsUrl(o.wsUrl).Ok?
    ensures OwnReachable(o, headers)(second) && !second.stopped && second.client == 2 && Waiting(second) > 0
    ensures second.pending == multiset{Pending(2, Resolve)}
    ensures OwnReachable(o, headers)(third) && !third.stopped && third.client == 3
    ensures third.pending == multiset{Pending(2, Resolve), Pending(3, Resolve)}
  {
    OwnReachableClosed(o, headers);
    StartReachable(o, headers);
    second := TwoWaits(o, OwnReachable(o, headers), Start(o, headers));
    third := Reconnects(o, OwnReachable(o, headers), second);
  }

  // ---------------------------------------------------------------- with completions of replaced clients

  /** The states any run of the model leads to. */
  ghost function Reachable(o: Options, headers: Headers): Feed -> bool {
    (s: Feed) => exists trace :: Allowed(o, Start(o, headers), trace) && s == Run(o, Start(o, headers), trace)
  }

  ghost predicate Closed(o: Options, reach: Feed -> bool) {
    forall s, e | reach(s) && Enabled(s, e) :: reach(Next(o, s, e))
  }

  lemma OwnIsReachable(o: Options, headers: Headers, s: Feed)
    requires OwnReachable(o, headers)(s)
    ensures Reachable(o, headers)(s)
  {
  }

  lemma ReachableStep(o: Options, headers: Headers, s: Feed, e: Event)
    requires Reachable(o, headers)(s) && Enabled(s, e)
    ensures Reachable(o, headers)(Next(o, s, e))
  {
    var start := Start(o, headers);
    var trace :| Allowed(o, start, trace) && s == Run(o, start, trace);
    RunSnoc(o, start, trace, e);
    var longer := trace + [e];
    assert Allowed(o, start, longer) && Next(o, s, e) == Run(o, start, longer);
  }

  lemma ReachableClosed(o: Options, headers: Headers)
    ensures Closed(o, Reachable(o, headers))
  {
    forall s, e | Reachable(o, headers)(s) && Enabled(s, e)
      ensures Reachable(o, headers)(Next(o, s, e))
    {
      ReachableStep(o, headers, s, e);
    }
  }

  lemma StrayFails(o: Options, reach: Feed -> bool, s: Feed, p: Pending) returns (t: Feed)
    requires Closed(o, reach) && reach(s) && !s.stopped && p in s.pending && o.autoReconnect
    ensures reach(t) && !t.stopped && t.client == s.client && t.history.sent == s.history.sent
    ensures t.pending == s.pending - multiset{p} && t.waits.live == 1
  {
    assert Enabled(s, Fail(p));
    t := Next(o, s, Fail(p));
  }

  /** The second client is replaced on a failure of the first, and opens all the same. */
  lemma CommandStrays(o: Options, reach: Feed -> bool, second: Feed) returns (s: Feed)
    requires Closed(o, reach) && reach(second) && !second.stopped && second.client == 2
    requires second.pending == multiset{Pending(1, Write), Pending(2, Resolve)}
    requires o.autoReconnect && o.subscribeCmd != "" && ParseWsUrl(o.wsUrl).Ok?
    ensures reach(s) && !s.stopped && s.client == 3 && s.backoff == o.initialDelay
    ensures s.history.sent == second.history.sent + [Sent(3, o.subscribeCmd)]
    ensures s.pending == multiset{Pending(2, Read), Pending(3, Resolve), Pending(3, Write)}
  {
    s := Approaches(o, reach, second);
    assert s.pending == multiset{Pending(1, Write), Pending(2, WsHandshake)};
    s := StrayFails(o, reach, s, Pending(1, Write));
    assert s.pending == multiset{Pending(2, WsHandshake)};
    s := Reconnects(o, reach, s);
    s := OpensBehind(o, reach, s);
  }

  lemma OpensBehind(o: Options, reach: Feed -> bool, s: Feed) returns (t: Feed)
    requires Closed(o, reach) && reach(s) && !s.stopped && s.client == 3 && o.subscribeCmd != ""
    requires s.pending == multiset{Pending(2, WsHandshake), Pending(3, Resolve)}
    ensures reach(t) && !t.stopped && t.client == 3 && t.backoff == o.initialDelay
    ensures t.history.sent == s.history.sent + [Sent(3, o.subscribeCmd)]
    ensures t.pending == multiset{Pending(2, Read), Pending(3, Resolve), Pending(3, Write)}
  {
    assert Enabled(s, Succeed(Pending(2, WsHandshake), NO_MESSAGE));
    t := Next(o, s, Succeed(Pending(2, WsHandshake), NO_MESSAGE));
  }

  /**
   * Only completions of replaced clients can send the command to a client that is not
   * connected; the model has such runs, the source destroys those clients. The first
   * client's write fails late, and the second client's handshake completes when the third,
   * which has only begun to resolve, is the current one.
   */
  lemma CommandMissesConnection(o: Options, headers: Headers) returns (s: Feed)
    requires o.autoReconnect && o.subscribeCmd != "" && ParseWsUrl(o.wsUrl).Ok?
    ensures Reachable(o, headers)(s)
    ensures !s.stopped && s.client == 3 && s.backoff == o.initialDelay
    ensures s.history.sent == [Sent(1, o.subscribeCmd), Sent(3, o.subscribeCmd)]
    ensures s.pending == multiset{Pending(2, Read), Pending(3, Resolve), Pending(3, Write)}
  {
    var second := WriteLeftBehind(o, headers);
    OwnIsReachable(o, headers, second);
    ReachableClosed(o, headers);
    s := CommandStrays(o, Reachable(o, headers), second);
  }
}
