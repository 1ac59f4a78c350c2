/** What every interleaving of the logger keeps, and how a shutdown can end. */
module LoggerProofs {
  import opened Prelude
  import opened LogLine
  import opened LoggerSteps

  // ---------------------------------------------------------------- what a run should write

  /** The events of one epoch that the drop policy keeps. */
  function Kept(p: Params, epoch: seq<LogEvent>): (kept: seq<LogEvent>)
    ensures |kept| == if |epoch| <= p.capacity then |epoch| else p.capacity
  {
    if |epoch| <= p.capacity then epoch
    else if p.policy.DropOldest? then epoch[|epoch| - p.capacity..]
    else epoch[..p.capacity]
  }

  function KeptAll(p: Params, epochs: seq<seq<LogEvent>>): seq<LogEvent> {
    if epochs == [] then [] else KeptAll(p, epochs[..|epochs| - 1]) + Kept(p, epochs[|epochs| - 1])
  }

  function Flatten(epochs: seq<seq<LogEvent>>): seq<LogEvent> {
    if epochs == [] then [] else Flatten(epochs[..|epochs| - 1]) + epochs[|epochs| - 1]
  }

  /** The event with the time of the call, if it has none of its own. */
  function Timed(e: LogEvent, now: UInt64): LogEvent { e.(tsMs := if e.tsMs > 0 then e.tsMs else now) }

  ghost function OneAdmitted(p: Params, l: Label): seq<LogEvent> {
    if l.Log? && AtOrBehind(l.event.level, p.level) then [Timed(l.event, l.now)] else []
  }

  /** The events the log calls of a trace pass on, in order. */
  ghost function Admitted(p: Params, trace: seq<Label>): seq<LogEvent> {
    if trace == [] then [] else OneAdmitted(p, trace[0]) + Admitted(p, trace[1..])
  }

  /** The events written, summaries left out. */
  function Events(written: seq<Record>): seq<LogEvent> {
    if written == [] then []
    else
      var last := written[|written| - 1];
      Events(written[..|written| - 1]) + if last.Logged? then [last.event] else []
  }

  /** The sum of the counts in the summaries written. */
  function Reported(written: seq<Record>): nat {
    if written == [] then 0
    else
      var last := written[|written| - 1];
      Reported(written[..|written| - 1]) + if last.Summary? then last.count else 0
  }

  function Unwritten(s: State): seq<LogEvent>
    requires s.next <= |s.batch|
  {
    s.batch[s.next..]
  }

  // ---------------------------------------------------------------- the invariant

  /** Where each accepted event is: written, in the batch, in the queue or dropped by the policy. */
  predicate Placed(p: Params, s: State) {
    && s.next <= |s.batch|
    && (s.next < |s.batch| ==> s.pc.Writing? || s.pc.FinalWriting?)
    && s.queue == Kept(p, s.history.current)
    && Events(s.written) + Unwritten(s) == KeptAll(p, s.history.epochs)
    && s.history.accepted == Flatten(s.history.epochs) + s.history.current
  }

  /** Every drop is reported, about to be reported, still counted, or lost to an overflow. */
  predicate Counted(s: State)
    requires s.next <= |s.batch|
  {
    && (s.report > 0 ==> s.pc.Reporting?)
    && s.history.drops == Reported(s.written) + s.report + s.dropped + s.history.wraps * TWO_64
    && |s.history.accepted| == |Events(s.written)| + |Unwritten(s)| + |s.queue| + s.history.drops
    && (s.history.wraps == 0 ==> s.dropped == s.history.unreported)
    && (s.history.unreported == 0 ==> s.dropped == 0)
  }

  /** The worker will not look at the queue again. */
  predicate PastFinalSwap(pc: Pc) { pc.FinalWriting? || pc.Done? }

  /** What each position of the worker says about the shared state. */
  predicate Positioned(p: Params, s: State) {
    && (s.pc.Blocked? || s.pc.AboutToBlock? ==> s.queue == [])
    && (s.pc.Decide? ==> s.stop || s.queue != [])
    && (s.stop <==> !s.closing.Running?)
    && (!s.stop ==> s.history.late == 0)
    && (s.pc.FinalCheck? || s.pc.FinalSwap? || s.pc.FinalWriting? || s.pc.Done? ==> s.stop)
    && (PastFinalSwap(s.pc) && p.capacity > 0 ==> |s.history.current| <= s.history.late)
    && (s.pc.FinalSwap? ==> s.queue != [])
    && (s.pc.Writing? || s.pc.FinalWriting? ==> s.batch != [])
  }

  predicate Inv(p: Params, s: State) { Placed(p, s) && Counted(s) && Positioned(p, s) }

  // ---------------------------------------------------------------- every step keeps it

  lemma KeptSnoc(p: Params, epoch: seq<LogEvent>, e: LogEvent)
    requires ValidParams(p)
    ensures |epoch| < p.capacity ==> Kept(p, epoch + [e]) == Kept(p, epoch) + [e]
    ensures |epoch| >= p.capacity && p.policy.DropNewest? ==> Kept(p, epoch + [e]) == Kept(p, epoch)
    ensures |epoch| >= p.capacity && p.policy.DropOldest? ==> Kept(p, epoch + [e]) == Kept(p, epoch)[1..] + [e]
  {
  }

  lemma EnqueueKeeps(p: Params, s: State, e: LogEvent)
    requires ValidParams(p) && Inv(p, s) && !HoldsMutex(s.pc)
    ensures Inv(p, Enqueue(p, s, e))
  {
    KeptSnoc(p, s.history.current, e);
    assert Flatten(s.history.epochs) + (s.history.current + [e]) == s.history.accepted + [e];
  }

  lemma SwapKeeps(p: Params, s: State, pc: Pc)
    requires Placed(p, s) && s.next == |s.batch| && (pc.Writing? || pc.FinalWriting?)
    ensures Placed(p, SwapQueue(s, pc))
  {
    var t := SwapQueue(s, pc);
    var epochs := t.history.epochs;
    assert epochs[..|epochs| - 1] == s.history.epochs && epochs[|epochs| - 1] == s.history.current;
    assert Unwritten(s) == [] && Unwritten(t) == s.queue;
    assert Events(s.written) + [] == Events(s.written) == KeptAll(p, s.history.epochs);
    assert KeptAll(p, epochs) == KeptAll(p, s.history.epochs) + s.queue;
    assert t.history.accepted == Flatten(epochs) + [];
  }

  lemma WriteKeeps(p: Params, s: State)
    requires Placed(p, s) && Counted(s) && s.next < |s.batch|
    ensures Placed(p, WriteNext(s)) && Counted(WriteNext(s))
  {
  }

  lemma SummaryAppended(written: seq<Record>, count: UInt64, now: UInt64)
    ensures Events(written + [Summary(count, now)]) == Events(written)
    ensures Reported(written + [Summary(count, now)]) == Reported(written) + count
  {
  }

  lemma ReportKeeps(p: Params, s: State, now: UInt64)
    requires Inv(p, s) && s.pc.Reporting?
    ensures Inv(p, WorkerNext(s, now))
  {
    var t := WorkerNext(s, now);
    if s.report > 0 {
      SummaryAppended(s.written, s.report, now);
    } else {
      assert t.written == s.written;
    }
    assert Placed(p, t);
  }

  lemma WriteStepKeeps(p: Params, s: State, now: UInt64)
    requires Inv(p, s) && (s.pc.Writing? || s.pc.FinalWriting?)
    ensures Inv(p, WorkerNext(s, now))
  {
    if s.next < |s.batch| {
      WriteKeeps(p, s);
    }
  }

  lemma SwapStepKeeps(p: Params, s: State, now: UInt64)
    requires Inv(p, s) && (s.pc.Decide? || s.pc.FinalSwap?)
    ensures Inv(p, WorkerNext(s, now))
  {
    SwapKeeps(p, s, if s.pc.Decide? then Writing else FinalWriting);
  }

  lemma ExchangeKeeps(p: Params, s: State)
    requires Inv(p, s) && s.pc.Exchange?
    ensures Inv(p, ExchangeCount(s))
  {
  }

  lemma PcOnly(p: Params, s: State, pc: Pc)
    requires Placed(p, s) && Counted(s) && s.next == |s.batch| && s.report == 0
    ensures Placed(p, s.(pc := pc)) && Counted(s.(pc := pc))
  {
  }

  /** The actions that only move the worker. */
  lemma MoveKeeps(p: Params, s: State, now: UInt64)
    requires Inv(p, s) && !s.pc.Blocked? && !s.pc.Done?
    requires !s.pc.Writing? && !s.pc.FinalWriting? && !s.pc.Decide? && !s.pc.FinalSwap?
    requires !s.pc.Exchange? && !s.pc.Reporting?
    ensures Inv(p, WorkerNext(s, now))
  {
    var t := WorkerNext(s, now);
    assert t == s.(pc := t.pc);
    PcOnly(p, s, t.pc);
  }

  lemma WorkerKeeps(p: Params, s: State, now: UInt64)
    requires Inv(p, s) && !s.pc.Blocked? && !s.pc.Done?
    ensures Inv(p, WorkerNext(s, now))
  {
    if s.pc.Writing? || s.pc.FinalWriting? {
      WriteStepKeeps(p, s, now);
    } else if s.pc.Decide? || s.pc.FinalSwap? {
      SwapStepKeeps(p, s, now);
    } else if s.pc.Exchange? {
      ExchangeKeeps(p, s);
    } else if s.pc.Reporting? {
      ReportKeeps(p, s, now);
    } else {
      MoveKeeps(p, s, now);
    }
  }

  lemma NextKeeps(p: Params, s: State, l: Label)
    requires ValidParams(p) && Inv(p, s) && Enabled(p, s, l)
    ensures Inv(p, Next(p, s, l))
  {
    match l
    case Log(event, now) =>
      if ShouldLog(event.level, p.level) {
        EnqueueKeeps(p, s, Stamp(event, now));
      }
    case Worker(now) => WorkerKeeps(p, s, now);
    case _ =>
  }

  lemma {:induction false} RunKeeps(p: Params, s: State, trace: seq<Label>)
    requires ValidParams(p) && Inv(p, s) && Allowed(p, s, trace)
    ensures Inv(p, Run(p, s, trace))
    decreases trace
  {
    if trace != [] {
      NextKeeps(p, s, trace[0]);
      RunKeeps(p, Next(p, s, trace[0]), trace[1..]);
    }
  }

  /**
   * The level filter and the time stamp. A call below the minimum level changes nothing;
   * any other is accepted, with its own time or else that of the call.
   */
  lemma LogFilters(p: Params, s: State, e: LogEvent, now: UInt64)
    requires ValidParams(p) && Enabled(p, s, Log(e, now))
    ensures !AtOrBehind(e.level, p.level) ==> Next(p, s, Log(e, now)) == s
    ensures AtOrBehind(e.level, p.level) ==>
              Next(p, s, Log(e, now)).history.accepted == s.history.accepted + [Timed(e, now)]
  {
    FilterIsOrder(e.level, p.level);
  }

  lemma WorkerAcceptsNone(s: State, now: UInt64)
    requires !s.pc.Blocked? && !s.pc.Done?
    ensures WorkerNext(s, now).history.accepted == s.history.accepted
  {
  }

  lemma NextAccepts(p: Params, s: State, l: Label)
    requires ValidParams(p) && Enabled(p, s, l)
    ensures Next(p, s, l).history.accepted == s.history.accepted + OneAdmitted(p, l)
  {
    assert s.history.accepted + [] == s.history.accepted;
    match l
    case Log(event, now) => LogFilters(p, s, event, now);
    case Worker(now) => WorkerAcceptsNone(s, now);
    case _ =>
  }

  lemma {:induction false} RunAccepts(p: Params, s: State, trace: seq<Label>)
    requires ValidParams(p) && Allowed(p, s, trace)
    ensures Run(p, s, trace).history.accepted == s.history.accepted + Admitted(p, trace)
    decreases trace
  {
    if trace == [] {
      assert s.history.accepted + [] == s.history.accepted;
    } else {
      NextAccepts(p, s, trace[0]);
      RunAccepts(p, Next(p, s, trace[0]), trace[1..]);
      Assoc(s.history.accepted, OneAdmitted(p, trace[0]), Admitted(p, trace[1..]));
    }
  }

  lemma {:induction false} RunAppend(p: Params, s: State, trace: seq<Label>, more: seq<Label>)
    requires ValidParams(p) && Allowed(p, s, trace) && Allowed(p, Run(p, s, trace), more)
    ensures Allowed(p, s, trace + more)
    ensures Run(p, s, trace + more) == Run(p, Run(p, s, trace), more)
    decreases trace
  {
    if trace == [] {
      assert [] + more == more;
    } else {
      assert (trace + more)[1..] == trace[1..] + more;
      RunAppend(p, Next(p, s, trace[0]), trace[1..], more);
    }
  }

  lemma RunSnoc(p: Params, s: State, trace: seq<Label>, l: Label)
    requires ValidParams(p) && Allowed(p, s, trace) && Enabled(p, Run(p, s, trace), l)
    ensures Allowed(p, s, trace + [l])
    ensures Run(p, s, trace + [l]) == Next(p, Run(p, s, trace), l)
  {
    var t := Next(p, Run(p, s, trace), l);
    assert Allowed(p, t, []) && Run(p, t, []) == t;
    RunAppend(p, s, trace, [l]);
  }

  lemma RunTwo(p: Params, s: State, a: Label, b: Label)
    requires ValidParams(p) && Enabled(p, s, a) && Enabled(p, Next(p, s, a), b)
    ensures Allowed(p, s, [a, b]) && Run(p, s, [a, b]) == Next(p, Next(p, s, a), b)
  {
    RunSnoc(p, s, [], a);
    RunSnoc(p, s, [a], b);
    assert [] + [a] == [a] && [a] + [b] == [a, b];
  }

  /**
   * Who can act. A call that passes the filter waits only while the worker holds the mutex,
   * and any other never; the worker waits only asleep, and the destructor acts once, in order.
   */
  lemma WhoCanAct(p: Params, s: State, e: LogEvent, now: UInt64)
    ensures Enabled(p, s, Log(e, now)) <==>
            (AtOrBehind(e.level, p.level) ==> s.pc !in {CheckPredicate, AboutToBlock, Decide})
    ensures Enabled(p, s, Worker(now)) <==> s.pc !in {Blocked, Done}
    ensures Enabled(p, s, SpuriousWake) <==> s.pc == Blocked
    ensures Enabled(p, s, StopStore) <==> s.closing == Running
    ensures Enabled(p, s, NotifyAll) <==> s.closing == StopStored
  {
    FilterIsOrder(e.level, p.level);
  }

  // ---------------------------------------------------------------- safety over whole runs

  /**
   * Refinement. Whatever the interleaving, the events written, the rest of the batch and
   * the queue are, in order, what the drop policy keeps of each epoch between two swaps;
   * and the epochs together are exactly the events the log calls passed on.
   */
  lemma WritesKeptEvents(p: Params, trace: seq<Label>)
    requires ValidParams(p) && Allowed(p, INIT, trace)
    ensures var s := Run(p, INIT, trace);
            var epochs := s.history.epochs + [s.history.current];
            && Flatten(epochs) == Admitted(p, trace)
            && s.next <= |s.batch|
            && Events(s.written) + Unwritten(s) + s.queue == KeptAll(p, epochs)
            && |s.queue| <= p.capacity
  {
    var s := Run(p, INIT, trace);
    RunKeeps(p, INIT, trace);
    RunAccepts(p, INIT, trace);
    var epochs := s.history.epochs + [s.history.current];
    assert epochs[..|epochs| - 1] == s.history.epochs;
    assert s.history.accepted == [] + Admitted(p, trace) == Admitted(p, trace);
  }

  /**
   * Conservation. Every accepted event is written, in the batch, in the queue, or counted
   * as dropped: in a summary, in an exchanged count, or in the counter. The one loss is a
   * multiple of 2^64, when the counter overflows; fewer drops than that lose nothing.
   */
  lemma Conservation(p: Params, trace: seq<Label>)
    requires ValidParams(p) && Allowed(p, INIT, trace)
    ensures var s := Run(p, INIT, trace);
            var counted := Reported(s.written) + s.report + s.dropped;
            && s.next <= |s.batch|
            && |Admitted(p, trace)| ==
               |Events(s.written)| + |Unwritten(s)| + |s.queue| + counted + s.history.wraps * 0x1_0000_0000_0000_0000
            && (s.history.drops < 0x1_0000_0000_0000_0000 ==> s.history.wraps == 0)
  {
    RunKeeps(p, INIT, trace);
    RunAccepts(p, INIT, trace);
    assert [] + Admitted(p, trace) == Admitted(p, trace);
  }

  /**
   * No lost wakeup for events: the worker sleeps, or is about to, only while the queue is
   * empty; so while events wait and run() has not ended, the worker can act.
   */
  lemma NoLostWakeup(p: Params, trace: seq<Label>)
    requires ValidParams(p) && Allowed(p, INIT, trace)
    ensures var s := Run(p, INIT, trace);
            && (s.pc.Blocked? || s.pc.AboutToBlock? ==> s.queue == [])
            && (s.queue != [] ==> s.pc.Done? || Enabled(p, s, Worker(0)))
            && (s.pc.Writing? ==> s.batch != [])
  {
    RunKeeps(p, INIT, trace);
  }

  // ---------------------------------------------------------------- what the summaries count

  /** How many events of these epochs the policy drops. */
  function Lost(p: Params, epochs: seq<seq<LogEvent>>): int { |Flatten(epochs)| - |KeptAll(p, epochs)| }

  /**
   * The counter is exchanged outside the lock. With the exchange, all that was ever taken
   * from it is the loss of the epochs written and of the one still open; so the summaries
   * up to this one account for exactly the epochs written if and only if the open epoch
   * fits the queue. Overflows of the counter count as taken.
   */
  lemma SummariesExactIff(p: Params, trace: seq<Label>)
    requires ValidParams(p) && Allowed(p, INIT, trace) && Run(p, INIT, trace).pc.Exchange?
    ensures var s := Run(p, INIT, trace);
            var t := WorkerNext(s, 0);
            var taken := Reported(t.written) + t.report + t.history.wraps * TWO_64;
            && t.dropped == 0 && t.pc.Reporting?
            && taken == Lost(p, s.history.epochs + [s.history.current])
            && (taken == Lost(p, s.history.epochs) <==> |s.history.current| <= p.capacity)
  {
    var s := Run(p, INIT, trace);
    RunKeeps(p, INIT, trace);
    var epochs := s.history.epochs + [s.history.current];
    assert epochs[..|epochs| - 1] == s.history.epochs;
    assert Unwritten(s) == [];
  }

  /** Two calls with room for one event: one drop, and whichever event the policy keeps. */
  lemma LoggedTwice(p: Params, s: State, e: LogEvent)
    requires ValidParams(p) && p.capacity == 1 && ShouldLog(e.level, p.level) && e.tsMs > 0
    requires s.queue == [] && s.dropped == 0 && !HoldsMutex(s.pc) && !s.pc.Blocked?
    ensures var trace := [Log(e, 0), Log(e, 0)];
            && Allowed(p, s, trace)
            && var t := Run(p, s, trace);
               t == s.(queue := [e], dropped := 1, history := t.history)
               && t.history.epochs == s.history.epochs
               && t.history.late == s.history.late + if s.stop then 2 else 0
  {
    RunTwo(p, s, Log(e, 0), Log(e, 0));
    assert Next(p, s, Log(e, 0)).queue == [] + [e] == [e];
  }

  /** The worker of a new logger takes the first event and is about to write it. */
  lemma FirstSwapped(p: Params, e: LogEvent)
    requires ValidParams(p) && p.capacity == 1 && ShouldLog(e.level, p.level) && e.tsMs > 0
    ensures var trace := [Log(e, 0), Worker(0)] + [Worker(0), Worker(0)] + [Worker(0)];
            && Allowed(p, INIT, trace)
            && var s := Run(p, INIT, trace);
               && s.pc.Writing? && s.batch == [e] && s.next == 0 && s.queue == [] && s.dropped == 0
               && s.written == [] && s.history.epochs == [[e]]
  {
    var work := Worker(0);
    RunTwo(p, INIT, Log(e, 0), work);
    RunTwo(p, Run(p, INIT, [Log(e, 0), work]), work, work);
    RunAppend(p, INIT, [Log(e, 0), work], [work, work]);
    RunSnoc(p, INIT, [Log(e, 0), work] + [work, work], work);
  }

  /** The worker writes its one event and then the count it finds. */
  lemma WritesThenReports(p: Params, s: State, e: LogEvent)
    requires ValidParams(p) && s.pc.Writing? && s.batch == [e] && s.next == 0 && s.dropped > 0
    ensures var trace := [Worker(0), Worker(0)] + [Worker(0), Worker(0)];
            && Allowed(p, s, trace)
            && var t := Run(p, s, trace);
               t.written == s.written + [Logged(e)] + [Summary(s.dropped, 0)] && t.history.epochs == s.history.epochs
  {
    var work := Worker(0);
    RunTwo(p, s, work, work);
    RunTwo(p, Run(p, s, [work, work]), work, work);
    RunAppend(p, s, [work, work], [work, work]);
  }

  /**
   * A summary of one drop behind an epoch that lost nothing: with room for one event, two
   * log calls while the first event is being written.
   */
  lemma SummaryRunsAhead(policy: Policy, e: LogEvent)
    requires e.tsMs > 0
    ensures var p := Params(e.level, 1, policy);
            var log, work := Log(e, 0), Worker(0);
            var trace := [log, work] + [work, work] + [work] + [log, log] + ([work, work] + [work, work]);
            && Allowed(p, INIT, trace)
            && Run(p, INIT, trace).written == [Logged(e), Summary(1, 0)]
            && Run(p, INIT, trace).history.epochs == [[e]] && Lost(p, [[e]]) == 0
  {
    var p := Params(e.level, 1, policy);
    var log, work := Log(e, 0), Worker(0);
    var swapped := [log, work] + [work, work] + [work];
    FirstSwapped(p, e);
    LoggedTwice(p, Run(p, INIT, swapped), e);
    RunAppend(p, INIT, swapped, [log, log]);
    WritesThenReports(p, Run(p, INIT, swapped + [log, log]), e);
    RunAppend(p, INIT, swapped + [log, log], [work, work] + [work, work]);
    assert Flatten([[e]]) == Flatten([]) + [e] && KeptAll(p, [[e]]) == KeptAll(p, []) + [e];
  }

  /** A log call that passes the filter and finds the queue full. */
  ghost predicate MeetsFullQueue(p: Params, s: State, l: Label) {
    l.Log? && AtOrBehind(l.event.level, p.level) && |s.queue| >= p.capacity
  }

  /** The calls of a trace that met a full queue since the last exchange, n of them before it. */
  ghost function FullSinceExchange(p: Params, s: State, trace: seq<Label>, n: nat): nat
    requires ValidParams(p) && Allowed(p, s, trace)
    decreases trace
  {
    if trace == [] then n
    else
      var l := trace[0];
      FullSinceExchange(p, Next(p, s, l), trace[1..],
                        if l.Worker? && s.pc.Exchange? then 0 else if MeetsFullQueue(p, s, l) then n + 1 else n)
  }

  lemma {:induction false} UnreportedCounts(p: Params, s: State, trace: seq<Label>)
    requires ValidParams(p) && Allowed(p, s, trace)
    ensures Run(p, s, trace).history.unreported == FullSinceExchange(p, s, trace, s.history.unreported)
    decreases trace
  {
    if trace != [] {
      if trace[0].Log? {
        FilterIsOrder(trace[0].event.level, p.level);
      }
      UnreportedCounts(p, Next(p, s, trace[0]), trace[1..]);
    }
  }

  /** The calls of a trace that passed the filter when stop_ was set, n of them before it. */
  ghost function LateCalls(p: Params, s: State, trace: seq<Label>, n: nat): nat
    requires ValidParams(p) && Allowed(p, s, trace)
    decreases trace
  {
    if trace == [] then n
    else
      var l := trace[0];
      var late := l.Log? && AtOrBehind(l.event.level, p.level) && s.stop;
      LateCalls(p, Next(p, s, l), trace[1..], if late then n + 1 else n)
  }

  lemma {:induction false} LateCounts(p: Params, s: State, trace: seq<Label>)
    requires ValidParams(p) && Allowed(p, s, trace)
    ensures Run(p, s, trace).history.late == LateCalls(p, s, trace, s.history.late)
    decreases trace
  {
    if trace != [] {
      if trace[0].Log? {
        FilterIsOrder(trace[0].event.level, p.level);
      }
      LateCounts(p, Next(p, s, trace[0]), trace[1..]);
    }
  }

  /**
   * At exit the events in the output are those the policy kept of the epochs swapped in,
   * and every drop is in a summary if and only if no log call since the last exchange met a
   * full queue (and the 64-bit counter never overflowed). What is left in the queue was logged after stop_ was
   * set and came too late for the final swap; no such event is written or counted.
   */
  lemma AtExit(p: Params, trace: seq<Label>)
    requires ValidParams(p) && Allowed(p, INIT, trace) && Run(p, INIT, trace).pc.Done?
    ensures var s := Run(p, INIT, trace);
            var h := s.history;
            && s.next == |s.batch| && s.report == 0
            && Admitted(p, trace) == Flatten(h.epochs) + h.current
            && Events(s.written) == KeptAll(p, h.epochs) && s.queue == Kept(p, h.current)
            && |Admitted(p, trace)| == |Events(s.written)| + |s.queue| + h.drops
            && h.drops == Reported(s.written) + s.dropped + h.wraps * TWO_64
            && (h.drops == Reported(s.written) <==> FullSinceExchange(p, INIT, trace, 0) == 0 && h.wraps == 0)
            && (p.capacity > 0 ==> |h.current| <= LateCalls(p, INIT, trace, 0))
            && (LateCalls(p, INIT, trace, 0) == 0 ==> s.queue == [])
  {
    var s := Run(p, INIT, trace);
    RunKeeps(p, INIT, trace);
    RunAccepts(p, INIT, trace);
    UnreportedCounts(p, INIT, trace);
    LateCounts(p, INIT, trace);
    assert [] + Admitted(p, trace) == Admitted(p, trace);
    assert Unwritten(s) == [];
  }

  /** A drop that no summary reports: the queue overflows before the worker first runs, and stop_ is set. */
  lemma DropUnreportedAtExit(policy: Policy, e: LogEvent)
    requires e.tsMs > 0
    ensures var p := Params(e.level, 1, policy);
            var log, work := Log(e, 0), Worker(0);
            var trace := [log, log] + [StopStore, work] + [work, work] + [work, work];
            && Allowed(p, INIT, trace)
            && var s := Run(p, INIT, trace);
               s.pc.Done? && s.written == [Logged(e)] && s.dropped == 1 && s.history.late == 0
  {
    var p := Params(e.level, 1, policy);
    var log, work := Log(e, 0), Worker(0);
    LoggedTwice(p, INIT, e);
    var s := Run(p, INIT, [log, log]);
    RunTwo(p, s, StopStore, work);
    RunAppend(p, INIT, [log, log], [StopStore, work]);
    var stopped := Run(p, s, [StopStore, work]);
    RunTwo(p, stopped, work, work);
    RunAppend(p, INIT, [log, log] + [StopStore, work], [work, work]);
    var writing := Run(p, stopped, [work, work]);
    assert writing.pc.FinalWriting? && writing.batch == [e] && writing.queue == [];
    RunTwo(p, writing, work, work);
    RunAppend(p, INIT, [log, log] + [StopStore, work] + [work, work], [work, work]);
  }

  // ---------------------------------------------------------------- shutdown

  predicate NoLogCalls(trace: seq<Label>) { forall i :: 0 <= i < |trace| ==> !trace[i].Log? }

  /** The event accepted at position n is in the epochs swapped in, or its time is still to come. */
  predicate Taken(n: nat, s: State) {
    |s.history.accepted| > n && (PastFinalSwap(s.pc) ==> |Flatten(s.history.epochs)| > n)
  }

  lemma LogLeaves(p: Params, s: State, event: LogEvent, now: UInt64)
    requires ValidParams(p)
    ensures var t := LogCall(p, s, event, now);
            && t.history.epochs == s.history.epochs && |t.history.accepted| >= |s.history.accepted|
            && PastFinalSwap(t.pc) == PastFinalSwap(s.pc)
  {
  }

  lemma FinalSwapTakes(p: Params, s: State, now: UInt64)
    requires Placed(p, s) && s.pc.FinalSwap?
    ensures var h := WorkerNext(s, now).history;
            h.accepted == s.history.accepted && |Flatten(h.epochs)| == |h.accepted|
  {
    var epochs := WorkerNext(s, now).history.epochs;
    assert epochs[..|epochs| - 1] == s.history.epochs;
  }

  lemma EmptyQueueTakes(p: Params, s: State)
    requires p.capacity > 0 && Placed(p, s) && s.queue == []
    ensures |Flatten(s.history.epochs)| == |s.history.accepted|
  {
    assert s.history.current == [];
  }

  /** Any other action makes no final swap. */
  lemma OthersTakeNothing(s: State, now: UInt64)
    requires !s.pc.Blocked? && !s.pc.Done? && !s.pc.FinalSwap? && !(s.pc.FinalCheck? && s.queue == [])
    ensures var t := WorkerNext(s, now);
            && t.history.accepted == s.history.accepted
            && (PastFinalSwap(t.pc) ==> PastFinalSwap(s.pc) && t.history.epochs == s.history.epochs)
  {
  }

  lemma WorkerTakes(p: Params, s: State, now: UInt64, n: nat)
    requires p.capacity > 0 && Placed(p, s) && !s.pc.Blocked? && !s.pc.Done? && Taken(n, s)
    ensures Taken(n, WorkerNext(s, now))
  {
    if s.pc.FinalSwap? {
      FinalSwapTakes(p, s, now);
    } else if s.pc.FinalCheck? && s.queue == [] {
      EmptyQueueTakes(p, s);
    } else {
      OthersTakeNothing(s, now);
    }
  }

  lemma {:induction false} StaysTaken(p: Params, s: State, trace: seq<Label>, n: nat)
    requires ValidParams(p) && p.capacity > 0 && Inv(p, s) && Allowed(p, s, trace) && Taken(n, s)
    ensures Taken(n, Run(p, s, trace))
    decreases trace
  {
    if trace != [] {
      match trace[0] {
        case Log(event, now) => LogLeaves(p, s, event, now);
        case Worker(now) => WorkerTakes(p, s, now, n);
        case _ =>
      }
      NextKeeps(p, s, trace[0]);
      StaysTaken(p, Next(p, s, trace[0]), trace[1..], n);
    }
  }

  lemma EpochsClosedStep(p: Params, s: State, l: Label)
    requires ValidParams(p) && Enabled(p, s, l) && PastFinalSwap(s.pc)
    ensures PastFinalSwap(Next(p, s, l).pc) && Next(p, s, l).history.epochs == s.history.epochs
  {
  }

  lemma {:induction false} EpochsClosed(p: Params, s: State, trace: seq<Label>)
    requires ValidParams(p) && Allowed(p, s, trace) && PastFinalSwap(s.pc)
    ensures PastFinalSwap(Run(p, s, trace).pc) && Run(p, s, trace).history.epochs == s.history.epochs
    decreases trace
  {
    if trace != [] {
      EpochsClosedStep(p, s, trace[0]);
      EpochsClosed(p, Next(p, s, trace[0]), trace[1..]);
    }
  }

  /**
   * Which events are lost for coming too late. An event logged at any time, whatever is
   * logged after it, is in an epoch at exit, so written or counted as dropped, if and only if
   * the worker had not yet made its final swap, or found the queue empty instead, when the
   * event was logged. If it had, the output holds what was kept before and nothing more.
   */
  lemma EventTakenIff(p: Params, trace: seq<Label>, e: LogEvent, now: UInt64, rest: seq<Label>)
    requires ValidParams(p) && p.capacity > 0 && Allowed(p, INIT, trace)
    requires AtOrBehind(e.level, p.level) && Enabled(p, Run(p, INIT, trace), Log(e, now))
    requires Allowed(p, Next(p, Run(p, INIT, trace), Log(e, now)), rest)
    requires Run(p, Next(p, Run(p, INIT, trace), Log(e, now)), rest).pc.Done?
    ensures var s := Run(p, INIT, trace);
            var t := Run(p, Next(p, s, Log(e, now)), rest);
            var n := |Admitted(p, trace)|;
            && n < |t.history.accepted| && t.history.accepted[n] == Timed(e, now)
            && t.history.accepted == Flatten(t.history.epochs) + t.history.current
            && (n < |Flatten(t.history.epochs)| <==> !PastFinalSwap(s.pc))
            && (PastFinalSwap(s.pc) ==> Events(t.written) == KeptAll(p, s.history.epochs))
  {
    var s := Run(p, INIT, trace);
    RunKeeps(p, INIT, trace);
    RunAccepts(p, INIT, trace);
    assert [] + Admitted(p, trace) == Admitted(p, trace);
    EventSettles(p, s, e, now, rest);
  }

  lemma EventSettles(p: Params, s: State, e: LogEvent, now: UInt64, rest: seq<Label>)
    requires ValidParams(p) && p.capacity > 0 && Inv(p, s)
    requires AtOrBehind(e.level, p.level) && Enabled(p, s, Log(e, now))
    requires Allowed(p, Next(p, s, Log(e, now)), rest)
    requires Run(p, Next(p, s, Log(e, now)), rest).pc.Done?
    ensures var t := Run(p, Next(p, s, Log(e, now)), rest);
            var n := |s.history.accepted|;
            && n < |t.history.accepted| && t.history.accepted[n] == Timed(e, now)
            && t.history.accepted == Flatten(t.history.epochs) + t.history.current
            && (n < |Flatten(t.history.epochs)| <==> !PastFinalSwap(s.pc))
            && (PastFinalSwap(s.pc) ==> Events(t.written) == KeptAll(p, s.history.epochs))
  {
    var logged := Next(p, s, Log(e, now));
    NextKeeps(p, s, Log(e, now));
    LoggedOnly(p, s, e, now);
    RunAccepts(p, logged, rest);
    RunKeeps(p, logged, rest);
    if PastFinalSwap(s.pc) {
      EpochsClosed(p, logged, rest);
      assert Unwritten(Run(p, logged, rest)) == [];
    } else {
      StaysTaken(p, logged, rest, |s.history.accepted|);
    }
  }

  lemma LoggedOnly(p: Params, s: State, e: LogEvent, now: UInt64)
    requires ValidParams(p) && AtOrBehind(e.level, p.level) && Enabled(p, s, Log(e, now))
    ensures var t := Next(p, s, Log(e, now));
            && t.history.accepted == s.history.accepted + [Timed(e, now)] && t.history.epochs == s.history.epochs
            && PastFinalSwap(t.pc) == PastFinalSwap(s.pc)
  {
    FilterIsOrder(e.level, p.level);
  }

  /** So if the event is the last one, all events are in the epochs exactly when it is. */
  lemma LastEventTakenIff(p: Params, trace: seq<Label>, e: LogEvent, now: UInt64, rest: seq<Label>)
    requires ValidParams(p) && p.capacity > 0 && Allowed(p, INIT, trace)
    requires AtOrBehind(e.level, p.level) && Enabled(p, Run(p, INIT, trace), Log(e, now))
    requires Allowed(p, Next(p, Run(p, INIT, trace), Log(e, now)), rest) && NoLogCalls(rest)
    requires Run(p, Next(p, Run(p, INIT, trace), Log(e, now)), rest).pc.Done?
    ensures var s := Run(p, INIT, trace);
            var t := Run(p, Next(p, s, Log(e, now)), rest);
            && t.history.accepted == Admitted(p, trace) + [Timed(e, now)]
            && (Flatten(t.history.epochs) == t.history.accepted <==> !PastFinalSwap(s.pc))
  {
    var s := Run(p, INIT, trace);
    EventTakenIff(p, trace, e, now, rest);
    LoggedOnly(p, s, e, now);
    RunAccepts(p, INIT, trace);
    RunAccepts(p, Next(p, s, Log(e, now)), rest);
    NothingAdmitted(p, rest);
    assert [] + Admitted(p, trace) == Admitted(p, trace);
  }

  lemma NothingAdmitted(p: Params, trace: seq<Label>)
    requires NoLogCalls(trace)
    ensures Admitted(p, trace) == []
  {
  }

  /** What the worker and the destructor can do on their own. */
  predicate NoOutsideHelp(trace: seq<Label>) {
    forall i :: 0 <= i < |trace| ==> !trace[i].Log? && !trace[i].SpuriousWake?
  }

  function WorkerSteps(trace: seq<Label>): nat {
    if trace == [] then 0 else (if trace[0].Worker? then 1 else 0) + WorkerSteps(trace[1..])
  }

  predicate Asleep(pc: Pc) { pc.Blocked? || pc.AboutToBlock? }

  /** An upper bound on the worker's remaining actions once stop_ is set and no one logs. */
  function Remaining(s: State): nat
    requires s.next <= |s.batch|
  {
    var q := |s.queue|;
    match s.pc
    case Done => 0
    case FinalWriting => 1 + |s.batch| - s.next
    case FinalSwap => 2 + q
    case FinalCheck => 3 + q
    case LoopHead => 4 + q
    case Reporting => 5 + q
    case Exchange => 6 + q
    case Writing => 7 + q + |s.batch| - s.next
    case Decide => 8 + q
    case CheckPredicate => 9 + q
    case BeforeLock => 10 + q
    case Notified => 10 + q
    case AboutToBlock => 12 + q
    case Blocked => 11 + q
  }

  lemma StoppedWorker(p: Params, s: State, now: UInt64)
    requires Inv(p, s) && s.stop && !Asleep(s.pc) && !s.pc.Done?
    ensures var t := WorkerNext(s, now);
            && t.stop && !Asleep(t.pc)
            && t.next <= |t.batch| && Remaining(t) + 1 <= Remaining(s)
            && t.history.accepted == s.history.accepted && t.history.drops == s.history.drops
            && t.history.late == s.history.late
  {
    var t := WorkerNext(s, now);
    if s.pc.FinalSwap? || (s.pc.Decide? && s.queue != []) {
      assert |t.batch| == |s.queue| && t.next == 0 && t.queue == [];
    } else if s.pc.Writing? || s.pc.FinalWriting? {
      assert t.batch == s.batch && t.queue == s.queue;
    } else {
      assert t.queue == s.queue;
    }
  }

  lemma StoppedStep(p: Params, s: State, l: Label)
    requires ValidParams(p) && Inv(p, s) && s.stop && !Asleep(s.pc)
    requires Enabled(p, s, l) && !l.Log?
    ensures var t := Next(p, s, l);
            && Inv(p, t) && t.stop && !Asleep(t.pc)
            && Remaining(t) + (if l.Worker? then 1 else 0) <= Remaining(s)
  {
    NextKeeps(p, s, l);
    if l.Worker? {
      StoppedWorker(p, s, l.now);
    }
  }

  /**
   * Shutdown terminates. From any reachable state with stop_ set and the worker not asleep,
   * if no one logs any more the worker takes at most Remaining(s) actions and never falls
   * asleep; and as long as it is not done it can take another one.
   */
  lemma {:induction false} ShutdownTerminates(p: Params, s: State, trace: seq<Label>)
    requires ValidParams(p) && Inv(p, s) && s.stop && !Asleep(s.pc)
    requires Allowed(p, s, trace) && NoLogCalls(trace)
    ensures var t := Run(p, s, trace);
            && Inv(p, t) && t.stop && !Asleep(t.pc)
            && WorkerSteps(trace) + Remaining(t) <= Remaining(s)
            && (!t.pc.Done? ==> Enabled(p, t, Worker(0)))
    decreases trace
  {
    if trace != [] {
      StoppedStep(p, s, trace[0]);
      ShutdownTerminates(p, Next(p, s, trace[0]), trace[1..]);
    }
  }

  /** The worker, alone, reaches the end of run(). */
  ghost predicate CanFinish(p: Params, s: State)
    requires ValidParams(p)
  {
    exists trace :: NoOutsideHelp(trace) && Allowed(p, s, trace) && Run(p, s, trace).pc.Done?
  }

  lemma {:induction false} WorkerFinishes(p: Params, s: State) returns (trace: seq<Label>)
    requires ValidParams(p) && Inv(p, s) && s.stop && !Asleep(s.pc)
    ensures NoOutsideHelp(trace) && Allowed(p, s, trace) && Run(p, s, trace).pc.Done?
    decreases Remaining(s)
  {
    if s.pc.Done? {
      trace := [];
    } else {
      StoppedStep(p, s, Worker(0));
      var others := WorkerFinishes(p, Next(p, s, Worker(0)));
      trace := [Worker(0)] + others;
      assert trace[1..] == others;
    }
  }

  lemma SleeperStays(p: Params, s: State, trace: seq<Label>)
    requires ValidParams(p) && s.closing.NotifySent? && Asleep(s.pc)
    requires Allowed(p, s, trace) && NoOutsideHelp(trace)
    ensures Asleep(Run(p, s, trace).pc)
    decreases trace
  {
  }

  /** After the destructor's notify_all the worker ends if and only if it is not asleep or about to be. */
  lemma FinishesIffAwake(p: Params, s: State)
    requires ValidParams(p) && Inv(p, s) && s.closing.NotifySent?
    ensures CanFinish(p, s) <==> !Asleep(s.pc)
  {
    if Asleep(s.pc) {
      forall trace | NoOutsideHelp(trace) && Allowed(p, s, trace)
        ensures !Run(p, s, trace).pc.Done?
      {
        SleeperStays(p, s, trace);
      }
    } else {
      var trace := WorkerFinishes(p, s);
    }
  }

  /**
   * The destructor's notify_all ends the worker exactly when it does not fall between the
   * worker finding its predicate false and the worker going to sleep.
   */
  lemma NotifyEndsWorkerIff(p: Params, s: State)
    requires ValidParams(p) && Inv(p, s) && s.closing.StopStored?
    ensures CanFinish(p, Next(p, s, NotifyAll)) <==> !s.pc.AboutToBlock?
  {
    NextKeeps(p, s, NotifyAll);
    FinishesIffAwake(p, Next(p, s, NotifyAll));
  }

  /** That gap can be hit: an idle logger whose destructor never returns. */
  lemma ShutdownCanHang(p: Params)
    requires ValidParams(p)
    ensures var trace := [Worker(0), Worker(0), Worker(0), StopStore, NotifyAll, Worker(0)];
            && Allowed(p, INIT, trace)
            && Run(p, INIT, trace).pc.Blocked?
            && !CanFinish(p, Run(p, INIT, trace))
  {
  }
}
