/**
 * The logger object. Its methods are the atomic actions of LoggerSteps carried out on
 * fields; a caller's critical section or one worker action at a time, as the mutex makes it.
 */
module Logger {
  import opened Prelude
  import opened LogLine
  import opened LoggerSteps
  import opened LoggerProofs
  import opened LoggerOutput

  class AsyncJsonLogger {
    const level: Level
    const queueSize: nat
    const dropPolicy: Policy

    var queue: seq<LogEvent>
    var stop: bool
    var droppedCount: UInt64
    var closing: Closing
    var out: string

    // the worker thread: where it is in run(), and its local variables
    var pc: Pc
    var batch: seq<LogEvent>
    var next: nat
    var dropped: UInt64

    ghost var written: seq<Record>
    ghost var history: History
    ghost var trace: seq<Label>  // the actions that led here

    ghost function Options(): Params { Params(level, queueSize, dropPolicy) }

    ghost function Model(): State
      reads this
    {
      State(queue, stop, droppedCount, closing, pc, batch, next, dropped, written, history)
    }

    /** The stream holds the lines of the records written. */
    ghost predicate Consistent()
      reads this
    {
      ValidParams(Options()) && out == LogText(RecordEvents(written))
    }

    /** And the object is where its trace leads: a reachable state of the step system. */
    ghost predicate Valid()
      reads this
    {
      Consistent() && Allowed(Options(), INIT, trace) && Model() == Run(Options(), INIT, trace)
    }

    /** Records an action whose effect on the model is already in place. */
    ghost method Record(l: Label, before: State)
      requires Consistent() && Allowed(Options(), INIT, trace) && before == Run(Options(), INIT, trace)
      requires Enabled(Options(), before, l) && Model() == Next(Options(), before, l)
      modifies this`trace
      ensures Valid()
    {
      RunSnoc(Options(), INIT, trace, l);
      trace := trace + [l];
    }

    constructor (level: Level, queueSize: nat, dropPolicy: Policy)
      requires dropPolicy.DropOldest? ==> queueSize >= 1
      ensures Valid() && Model() == INIT
      ensures Options() == Params(level, queueSize, dropPolicy)
    {
      this.level, this.queueSize, this.dropPolicy := level, queueSize, dropPolicy;
      queue, stop, droppedCount, closing, out := [], false, 0, Running, "";
      pc, batch, next, dropped := LoopHead, [], 0, 0;
      written, history, trace := [], History([], [], [], 0, 0, 0, 0), [];
    }

    method Log(event: LogEvent, now: UInt64)
      requires Valid() && Enabled(Options(), Model(), Label.Log(event, now))
      modifies this
      ensures Valid() && Model() == Next(Options(), old(Model()), Label.Log(event, now)) && out == old(out)
      ensures !AtOrBehind(event.level, level) ==> Model() == old(Model())
      ensures AtOrBehind(event.level, level) ==>
                history.accepted == old(history.accepted) + [Timed(event, now)]
    {
      LogFilters(Options(), Model(), event, now);
      if ShouldLog(event.level, level) {
        var stamped := event;
        if stamped.tsMs == 0 {
          stamped := stamped.(tsMs := now);
        }
        Enqueue(stamped);
      }
      Record(Label.Log(event, now), old(Model()));
    }

    method Enqueue(event: LogEvent)
      requires Consistent()
      modifies this`queue, this`droppedCount, this`pc, this`history
      ensures Consistent() && Model() == LoggerSteps.Enqueue(Options(), old(Model()), event)
    {
      Accept(event);
      if |queue| >= queueSize {
        if dropPolicy == DropOldest {
          queue := queue[1..];
          CountDrop();
        } else {
          CountDrop();
          return;
        }
      }
      queue := queue + [event];
      pc := Wake(pc);
    }

    ghost method Accept(event: LogEvent)
      modifies this`history
      ensures history == Accepted(old(Model()), event)
    {
      history := Accepted(Model(), event);
    }

    method CountDrop()
      modifies this`droppedCount, this`history
      ensures droppedCount == Bumped(old(droppedCount))
      ensures history == Dropped(old(history), old(droppedCount))
    {
      history := Dropped(history, droppedCount);
      droppedCount := Bumped(droppedCount);
    }

    /** The worker wakes from its wait without being notified. */
    method WakeSpuriously()
      requires Valid() && pc == Blocked
      modifies this`pc, this`trace
      ensures Valid() && Model() == Next(Options(), old(Model()), SpuriousWake)
    {
      pc := Notified;
      Record(Label.SpuriousWake, old(Model()));
    }

    /** The destructor's store to stop_. */
    method StoreStop()
      requires Valid() && closing == Running
      modifies this
      ensures Valid() && Model() == Next(Options(), old(Model()), StopStore)
    {
      stop := true;
      closing := StopStored;
      Record(Label.StopStore, old(Model()));
    }

    /** The destructor's notify_all. */
    method NotifyWorker()
      requires Valid() && closing == StopStored
      modifies this
      ensures Valid() && Model() == Next(Options(), old(Model()), NotifyAll)
    {
      pc := Wake(pc);
      closing := NotifySent;
      Record(Label.NotifyAll, old(Model()));
    }

    method WriteEvent(event: LogEvent, ghost record: Record)
      requires out == LogText(RecordEvents(written)) && RecordEvent(record) == event
      modifies this`out, this`written
      ensures written == old(written) + [record] && out == LogText(RecordEvents(written))
    {
      var line := BuildLine(event);
      out := out + line;
      LogTextSnoc(RecordEvents(written), event);
      assert RecordEvents(written + [record]) == RecordEvents(written) + [event];
      written := written + [record];
    }

    method TakeQueue(resume: Pc)
      modifies this`queue, this`batch, this`next, this`pc, this`history
      ensures Model() == SwapQueue(old(Model()), resume)
    {
      batch, queue := queue, [];
      next := 0;
      history := history.(epochs := history.epochs + [history.current], current := []);
      pc := resume;
    }

    /** One turn of write_batch's loop, or its end. */
    method WriteOne(after: Pc)
      requires Consistent()
      modifies this`out, this`written, this`next, this`pc
      ensures Consistent()
      ensures Model() == if old(next) < |batch| then WriteNext(old(Model())) else old(Model()).(pc := after)
    {
      if next < |batch| {
        WriteEvent(batch[next], Logged(batch[next]));
        next := next + 1;
      } else {
        pc := after;
      }
    }

    /** The next action of run(). */
    method WorkerStep(now: UInt64)
      requires Valid() && pc != Blocked && pc != Done
      modifies this
      ensures Valid() && Model() == WorkerNext(old(Model()), now)
    {
      Act(now);
      Record(Label.Worker(now), old(Model()));
    }

    method Act(now: UInt64)
      requires Consistent() && pc != Blocked && pc != Done
      modifies this
      ensures Consistent() && trace == old(trace) && Model() == WorkerNext(old(Model()), now)
    {
      match pc {
      case Decide =>
        if stop && queue == [] {
          pc := FinalCheck;
        } else {
          TakeQueue(Writing);
        }
      case FinalSwap => TakeQueue(FinalWriting);
      case Writing => WriteOne(Exchange);
      case FinalWriting => WriteOne(Done);
      case Exchange => TakeCount();
      case Reporting => ReportCount(now);
      case LoopHead | BeforeLock | CheckPredicate | AboutToBlock | Notified | FinalCheck => Move();
      }
    }

    /** The actions that only move the worker. */
    method Move()
      requires pc == LoopHead || pc == BeforeLock || pc == CheckPredicate
            || pc == AboutToBlock || pc == Notified || pc == FinalCheck
      modifies this`pc
      ensures Model() == WorkerNext(old(Model()), 0)
    {
      match pc {
      case LoopHead => pc := if stop then FinalCheck else BeforeLock;
      case BeforeLock => pc := CheckPredicate;
      case CheckPredicate => pc := if stop || queue != [] then Decide else AboutToBlock;
      case AboutToBlock => pc := Blocked;
      case Notified => pc := CheckPredicate;
      case FinalCheck => pc := if queue == [] then Done else FinalSwap;
      }
    }

    /** dropped_count_.exchange(0). */
    method TakeCount()
      modifies this`dropped, this`droppedCount, this`pc, this`history
      ensures Model() == ExchangeCount(old(Model()))
    {
      dropped, droppedCount, pc := droppedCount, 0, Reporting;
      history := history.(unreported := 0);
    }

    /** write_dropped_summary, if there is anything to report. */
    method ReportCount(now: UInt64)
      requires Consistent() && pc == Reporting
      modifies this`out, this`written, this`dropped, this`pc
      ensures Consistent() && Model() == WorkerNext(old(Model()), now)
    {
      if dropped > 0 {
        WriteEvent(SummaryEvent(dropped, now), Summary(dropped, now));
      } else {
        assert written + [] == written;
      }
      dropped, pc := 0, LoopHead;
    }

    /** write_batch: the rest of the batch, event by event. */
    method WriteBatch()
      requires Valid() && (pc == Writing || pc == FinalWriting) && next <= |batch|
      modifies this
      ensures Valid() && Model() == BatchWritten(old(Model()))
    {
      while next < |batch|
        invariant Valid() && (pc == Writing || pc == FinalWriting) && next <= |batch|
        invariant BatchWritten(Model()) == BatchWritten(old(Model()))
      {
        BatchStep(Model());
        WorkerStep(0);
      }
      BatchEnd(Model());
    }

    /**
     * What the join waits for: with stop_ set, no callers left and the worker not asleep,
     * run() comes to its end, and the stream then holds everything the policy kept.
     */
    method FinishRun(now: UInt64)
      requires Valid() && stop && !Asleep(pc)
      modifies this
      ensures Valid() && pc == Done
      ensures history.accepted == old(history).accepted && history.drops == old(history).drops
      ensures Events(written) == KeptAll(Options(), history.epochs) && queue == Kept(Options(), history.current)
      ensures history.drops == Reported(written) <==>
              FullSinceExchange(Options(), INIT, trace, 0) == 0 && history.wraps == 0
      ensures LateCalls(Options(), INIT, trace, 0) == 0 ==> queue == []
    {
      RunKeeps(Options(), INIT, trace);
      while pc != Done
        invariant Valid() && stop && !Asleep(pc) && next <= |batch|
        invariant history.accepted == old(history).accepted && history.drops == old(history).drops
        invariant history.late == old(history).late
        decreases Remaining(Model())
      {
        ReachedStopped(Options(), trace, now);
        WorkerStep(now);
      }
      AtExit(Options(), trace);
    }
  }

  lemma ReachedStopped(p: Params, trace: seq<Label>, now: UInt64)
    requires ValidParams(p) && Allowed(p, INIT, trace)
    requires var s := Run(p, INIT, trace); s.stop && !Asleep(s.pc) && !s.pc.Done?
    ensures var s := Run(p, INIT, trace);
            var t := WorkerNext(s, now);
            && t.stop && !Asleep(t.pc) && s.next <= |s.batch|
            && t.next <= |t.batch| && Remaining(t) + 1 <= Remaining(s)
            && t.history.accepted == s.history.accepted && t.history.drops == s.history.drops
            && t.history.late == s.history.late
  {
    RunKeeps(p, INIT, trace);
    StoppedWorker(p, Run(p, INIT, trace), now);
  }

  function LogRecords(events: seq<LogEvent>): (records: seq<Record>)
    ensures |records| == |events|
    ensures forall i :: 0 <= i < |events| ==> records[i] == Logged(events[i])
  {
    seq(|events|, i requires 0 <= i < |events| => Logged(events[i]))
  }

  /** The state once the rest of the batch is written. */
  function BatchWritten(s: State): State
    requires s.next <= |s.batch|
  {
    s.(written := s.written + LogRecords(s.batch[s.next..]), next := |s.batch|)
  }

  lemma BatchStep(s: State)
    requires s.next < |s.batch|
    ensures BatchWritten(WriteNext(s)) == BatchWritten(s)
  {
  }

  lemma BatchEnd(s: State)
    requires s.next == |s.batch|
    ensures BatchWritten(s) == s
  {
  }
}
