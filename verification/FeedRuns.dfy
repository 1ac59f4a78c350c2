/** Runs the environment can choose: back to a reading client, and error after error. */
module FeedRuns {
  import opened Prelude
  import opened EventParser
  import opened WsUrl
  import opened FeedSteps
  import opened FeedProofs
  import Backoff

  lemma {:induction false} RunSnoc(o: Options, s: Feed, trace: seq<Event>, e: Event)
    requires Allowed(o, s, trace) && Enabled(Run(o, s, trace), e)
    ensures Allowed(o, s, trace + [e])
    ensures Run(o, s, trace + [e]) == Next(o, Run(o, s, trace), e)
    decreases trace
  {
    if trace == [] {
      var t := Next(o, s, e);
      assert Allowed(o, t, []) && Run(o, t, []) == t;
      assert [] + [e] == [e] && [e][1..] == [];
    } else {
      assert (trace + [e])[1..] == trace[1..] + [e];
      RunSnoc(o, Next(o, s, trace[0]), trace[1..], e);
    }
  }

  // ---------------------------------------------------------------- reading again

  /** How far the current connection is from reading. */
  function Distance(s: Feed): nat {
    if Pending(s.client, Read) in s.pending then 0
    else if Pending(s.client, WsHandshake) in s.pending then 1
    else if Pending(s.client, SslHandshake) in s.pending then 2
    else if Pending(s.client, Connect) in s.pending then 3
    else if Pending(s.client, Resolve) in s.pending then 4
    else if s.waits.fired > 0 then 5
    else 6
  }

  function Forward(s: Feed): Event {
    match Distance(s)
    case 1 => Succeed(Pending(s.client, WsHandshake), Wire("", None))
    case 2 => Succeed(Pending(s.client, SslHandshake), Wire("", None))
    case 3 => Succeed(Pending(s.client, Connect), Wire("", None))
    case 4 => Succeed(Pending(s.client, Resolve), Wire("", None))
    case 5 => TimerHandler(NotSet)
    case _ => TimerExpires
  }

  lemma ForwardStep(o: Options, s: Feed)
    requires HasWork(s) && !s.stopped && Distance(s) > 0 && ParseWsUrl(o.wsUrl).Ok?
    ensures Enabled(s, Forward(s)) && OneDelivered(Forward(s)) == []
    ensures var t := Next(o, s, Forward(s)); !t.stopped && Distance(t) < Distance(s)
  {
    if Distance(s) <= 4 {
      ChainStep(o, s);
    } else if Distance(s) == 5 {
      assert Pending(s.client + 1, Resolve) in Next(o, s, TimerHandler(NotSet)).pending;
    }
  }

  lemma ChainStep(o: Options, s: Feed)
    requires !s.stopped && 0 < Distance(s) <= 4
    ensures Enabled(s, Forward(s)) && OneDelivered(Forward(s)) == []
    ensures var t := Next(o, s, Forward(s)); !t.stopped && Distance(t) < Distance(s)
  {
  }

  predicate Reads(s: Feed) { !s.stopped && Pending(s.client, Read) in s.pending }

  lemma {:induction false} WayBack(o: Options, s: Feed) returns (trace: seq<Event>)
    requires Inv(o, s) && !s.stopped && ParseWsUrl(o.wsUrl).Ok?
    ensures Allowed(o, s, trace) && Delivered(trace) == [] && Reads(Run(o, s, trace))
    decreases Distance(s)
  {
    if Distance(s) == 0 {
      trace := [];
    } else {
      ForwardStep(o, s);
      NextKeeps(o, s, Forward(s));
      var others := WayBack(o, Next(o, s, Forward(s)));
      trace := [Forward(s)] + others;
      assert trace[1..] == others;
    }
  }

  lemma NoOperations(o: Options, s: Feed, trace: seq<Event>)
    requires ParseWsUrl(o.wsUrl).Err? && s.pending == multiset{} && Allowed(o, s, trace)
    ensures Run(o, s, trace).pending == multiset{}
    decreases trace
  {
  }

  /**
   * Recovery. From a reachable state that is not stopped, whatever failed before, the
   * environment can let the handler reach a state in which the current client reads, without
   * delivering a message, if and only if the URL parses. The configuration does not check
   * it; with another URL the handler goes on reconnecting and never starts an operation.
   */
  lemma CanReadAgainIff(o: Options, headers: Headers, trace: seq<Event>)
    requires Allowed(o, Start(o, headers), trace) && !Run(o, Start(o, headers), trace).stopped
    ensures var s := Run(o, Start(o, headers), trace);
            && ((exists more :: Allowed(o, s, more) && Delivered(more) == [] && Reads(Run(o, s, more))) <==>
                ParseWsUrl(o.wsUrl).Ok?)
            && (ParseWsUrl(o.wsUrl).Err? ==> s.pending == multiset{} && (s.waits.live > 0 || s.waits.fired > 0))
  {
    var s := Run(o, Start(o, headers), trace);
    StartHolds(o, headers);
    RunKeeps(o, Start(o, headers), trace);
    if ParseWsUrl(o.wsUrl).Ok? {
      var more := WayBack(o, s);
    } else {
      NoOperations(o, Start(o, headers), trace);
      forall more | Allowed(o, s, more)
        ensures !Reads(Run(o, s, more))
      {
        NoOperations(o, s, more);
      }
    }
  }

  // ---------------------------------------------------------------- delays and 64 bits

  /** An error with reconnect enabled adds one delay to the outage. */
  lemma ErrorDelays(o: Options, s: Feed, code: WsError)
    requires o.autoReconnect
    ensures var t := OnError(o, s, code);
            |Outage(t.notes)| == |Outage(s.notes)| + 1 && !t.stopped == !s.stopped
  {
  }

  /** What brings the next error: a failing operation, or the timer on the way to a client. */
  function TowardsError(s: Feed): Event {
    match Distance(s)
    case 0 => Fail(Pending(s.client, Read))
    case 1 => Fail(Pending(s.client, WsHandshake))
    case 2 => Fail(Pending(s.client, SslHandshake))
    case 3 => Fail(Pending(s.client, Connect))
    case 4 => Fail(Pending(s.client, Resolve))
    case 5 => TimerHandler(NotSet)
    case _ => TimerExpires
  }

  predicate CloserToError(s: Feed, t: Feed) {
    && !t.stopped
    && (|Outage(t.notes)| == |Outage(s.notes)| + 1
        || (|Outage(t.notes)| == |Outage(s.notes)| && Distance(t) < Distance(s)))
  }

  lemma OperationFails(o: Options, s: Feed)
    requires o.autoReconnect && !s.stopped && Distance(s) <= 4
    ensures Enabled(s, TowardsError(s)) && CloserToError(s, Next(o, s, TowardsError(s)))
  {
    var p := TowardsError(s).p;
    assert p in s.pending;
    ErrorDelays(o, Finished(s, p), ErrorOf(p.op));
  }

  lemma TimerReconnects(o: Options, s: Feed)
    requires o.autoReconnect && !s.stopped && Distance(s) == 5
    ensures CloserToError(s, OnTimer(o, s, NotSet))
  {
    var made := NewClient(TimerDue(s, NotSet));
    if ParseWsUrl(o.wsUrl).Err? {
      ErrorDelays(o, made, InvalidUrl);
    } else {
      assert Pending(made.client, Resolve) in Started(made, Pending(made.client, Resolve)).pending;
    }
  }

  lemma ErrorStep(o: Options, s: Feed)
    requires o.autoReconnect && HasWork(s) && !s.stopped
    ensures Enabled(s, TowardsError(s)) && CloserToError(s, Next(o, s, TowardsError(s)))
  {
    if Distance(s) <= 4 {
      OperationFails(o, s);
    } else if Distance(s) == 5 {
      TimerReconnects(o, s);
    }
  }

  /** Any number of errors in a row without an open can follow. */
  lemma {:induction false} ErrorsInARow(o: Options, s: Feed, n: nat) returns (trace: seq<Event>)
    requires Inv(o, s) && o.autoReconnect && !s.stopped
    ensures Allowed(o, s, trace) && |Outage(Run(o, s, trace).notes)| >= n
    decreases n - |Outage(s.notes)|, Distance(s)
  {
    if |Outage(s.notes)| >= n {
      trace := [];
    } else {
      ErrorStep(o, s);
      NextKeeps(o, s, TowardsError(s));
      var others := ErrorsInARow(o, Next(o, s, TowardsError(s)), n);
      trace := [TowardsError(s)] + others;
      assert trace[1..] == others;
    }
  }

  /** Every delay ever passed to the timer is good. */
  ghost predicate AllDelays(notes: seq<Note>, good: int -> bool) {
    forall i :: 0 <= i < |notes| && notes[i].ReconnectScheduled? ==> good(notes[i].delay)
  }

  lemma {:induction false} OutageHolds(notes: seq<Note>, good: int -> bool, k: nat)
    requires AllDelays(notes, good) && k < |Outage(notes)|
    ensures good(Outage(notes)[k])
  {
    var before, last := notes[..|notes| - 1], notes[|notes| - 1];
    if !last.ReconnectScheduled? || k < |Outage(before)| {
      OutageHolds(before, good, k);
    }
  }

  lemma ErrorAddsDelay(o: Options, s: Feed, code: WsError, good: int -> bool)
    requires AllDelays(s.notes, good) && good(s.backoff)
    ensures AllDelays(OnError(o, s, code).notes, good)
  {
  }

  lemma TimerAddsDelay(o: Options, s: Feed, refresh: Refresh, good: int -> bool)
    requires AllDelays(s.notes, good) && good(s.backoff)
    ensures AllDelays(OnTimer(o, s, refresh).notes, good)
  {
    var due := TimerDue(s, refresh);
    assert AllDelays(due.notes, good) && due.backoff == s.backoff;
    if ParseWsUrl(o.wsUrl).Err? {
      ErrorAddsDelay(o, NewClient(due), InvalidUrl, good);
    }
  }

  lemma RecordAddsNone(o: Options, s: Feed, w: Wire, good: int -> bool)
    requires AllDelays(s.notes, good)
    ensures AllDelays(RecordMessage(o, s, w).notes, good)
  {
  }

  lemma DispatchAddsNone(o: Options, s: Feed, w: Wire, good: int -> bool)
    requires AllDelays(s.notes, good)
    ensures AllDelays(DispatchMessage(o, s, w).notes, good)
  {
  }

  lemma MessageAddsNone(o: Options, s: Feed, w: Wire, good: int -> bool)
    requires AllDelays(s.notes, good)
    ensures AllDelays(OnMessage(o, s, w).notes, good)
  {
    RecordAddsNone(o, s, w, good);
    DispatchAddsNone(o, RecordMessage(o, s, w), w, good);
  }

  lemma SuccessAddsNone(o: Options, s: Feed, p: Pending, w: Wire, good: int -> bool)
    requires AllDelays(s.notes, good)
    ensures AllDelays(OnSuccess(o, s, p, w).notes, good)
  {
    if p.op == Read {
      MessageAddsNone(o, Finished(s, p), w, good);
    }
  }

  /** The only delay a step can add is the current one. */
  lemma NextDelays(o: Options, s: Feed, e: Event, good: int -> bool)
    requires Enabled(s, e) && AllDelays(s.notes, good) && good(s.backoff)
    ensures AllDelays(Next(o, s, e).notes, good)
  {
    match e
    case Succeed(p, message) => SuccessAddsNone(o, s, p, message, good);
    case SniFails(client) => ErrorAddsDelay(o, Finished(s, Pending(client, Connect)), SslHandshakeFailed, good);
    case Fail(p) => ErrorAddsDelay(o, Finished(s, p), ErrorOf(p.op), good);
    case TimerHandler(refresh) => TimerAddsDelay(o, s, refresh, good);
    case _ =>
  }

  lemma {:induction false} RunDelays(o: Options, s: Feed, trace: seq<Event>, good: int -> bool)
    requires Inv(o, s) && Allowed(o, s, trace) && AllDelays(s.notes, good)
    requires SequenceGood(o, good)
    ensures AllDelays(Run(o, s, trace).notes, good)
    decreases trace
  {
    if trace != [] {
      NextDelays(o, s, trace[0], good);
      NextKeeps(o, s, trace[0]);
      RunDelays(o, Next(o, s, trace[0]), trace[1..], good);
    }
  }

  lemma StartDelays(o: Options, headers: Headers, good: int -> bool)
    requires good(o.initialDelay)
    ensures AllDelays(Start(o, headers).notes, good)
  {
  }

  /** Whatever the environment does, every delay passed to the timer is good. */
  ghost predicate RunsGood(o: Options, headers: Headers, good: int -> bool) {
    forall trace | Allowed(o, Start(o, headers), trace) :: AllDelays(Run(o, Start(o, headers), trace).notes, good)
  }

  ghost predicate SequenceGood(o: Options, good: int -> bool) {
    forall k: nat :: good(Backoff.Delay(o.initialDelay, o.maxDelay, k))
  }

  lemma DelayOccurs(o: Options, headers: Headers, good: int -> bool, k: nat)
    requires o.autoReconnect && RunsGood(o, headers, good)
    ensures good(Backoff.Delay(o.initialDelay, o.maxDelay, k))
  {
    var start := Start(o, headers);
    StartHolds(o, headers);
    var trace := ErrorsInARow(o, start, k + 1);
    RunKeeps(o, start, trace);
    OutageHolds(Run(o, start, trace).notes, good, k);
  }

  /**
   * Over all runs the delays passed to the timer are exactly the doubling sequence: they are
   * all good, whatever good means, if and only if every member of the sequence is.
   */
  lemma DelaysGoodIff(o: Options, headers: Headers, good: int -> bool)
    requires o.autoReconnect
    ensures RunsGood(o, headers, good) <==> SequenceGood(o, good)
  {
    var start := Start(o, headers);
    if SequenceGood(o, good) {
      StartHolds(o, headers);
      Backoff.DelayStep(o.initialDelay, o.maxDelay, 0);
      assert good(Backoff.Delay(o.initialDelay, o.maxDelay, 0));
      StartDelays(o, headers, good);
      forall trace | Allowed(o, start, trace)
        ensures AllDelays(Run(o, start, trace).notes, good)
      {
        RunDelays(o, start, trace, good);
      }
    }
    if RunsGood(o, headers, good) {
      forall k: nat
        ensures good(Backoff.Delay(o.initialDelay, o.maxDelay, k))
      {
        DelayOccurs(o, headers, good, k);
      }
    }
  }

  /** Doubling a delay on the way to the maximum stays within int64. */
  function DoublingFits(max: int): int -> bool { (delay: int) => delay < max ==> IsInt64(delay * 2) }

  /**
   * No run ever doubles a delay beyond int64 if and only if the initial delay is 0 or the
   * maximum is at most the first doubled value from 2^62 on.
   */
  lemma DoublingFitsIff(o: Options, headers: Headers)
    requires o.autoReconnect && 0 <= o.initialDelay <= o.maxDelay
    ensures RunsGood(o, headers, DoublingFits(o.maxDelay)) <==>
            o.initialDelay == 0 || o.maxDelay <= Backoff.Peak(o.initialDelay)
  {
    DelaysGoodIff(o, headers, DoublingFits(o.maxDelay));
    Backoff.NeverOverflowsIff(o.initialDelay, o.maxDelay);
    assert SequenceGood(o, DoublingFits(o.maxDelay)) <==> Backoff.NeverOverflows(o.initialDelay, o.maxDelay);
  }

  /** expires_after turns the delay into the clock's unit; here a nanosecond in 64 bits. */
  function WaitFits(): int -> bool { (delay: int) => IsInt64(delay * 1_000_000) }

  /**
   * No run ever asks for a wait whose nanoseconds leave int64 if and only if the initial
   * delay is 0 or the maximum is at most 9223372036854 milliseconds.
   */
  lemma WaitsFitIff(o: Options, headers: Headers)
    requires o.autoReconnect && 0 <= o.initialDelay <= o.maxDelay
    ensures RunsGood(o, headers, WaitFits()) <==> o.initialDelay == 0 || o.maxDelay <= 9_223_372_036_854
  {
    DelaysGoodIff(o, headers, WaitFits());
    forall k: nat
      ensures o.maxDelay <= 9_223_372_036_854 ==> WaitFits()(Backoff.Delay(o.initialDelay, o.maxDelay, k))
      ensures o.initialDelay == 0 ==> Backoff.Delay(o.initialDelay, o.maxDelay, k) == 0
    {
      Backoff.DelaysRise(o.initialDelay, o.maxDelay, k, k);
    }
    if o.initialDelay > 0 {
      var last := Backoff.Doublings(o.initialDelay, o.maxDelay);
      Backoff.ReachesMaxIff(o.initialDelay, o.maxDelay, last);
      assert WaitFits()(Backoff.Delay(o.initialDelay, o.maxDelay, last)) <==> WaitFits()(o.maxDelay);
    }
  }
}
