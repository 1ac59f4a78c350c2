/**
 * The asynchronous logger as a labelled transition system: any number of producers, one
 * worker thread and the destructor, interleaved one atomic action at a time.
 *
 * A producer's critical section is one step. The worker's loop is cut wherever it gives
 * up or takes the mutex and at every access to a shared atomic. The store to stop_ does
 * not take the mutex, so it may fall between the worker finding its predicate false and
 * the worker going to sleep.
 */
module LoggerSteps {
  import opened Prelude
  import opened LogLine

  datatype Policy = DropOldest | DropNewest

  datatype Params = Params(level: Level, capacity: nat, policy: Policy)

  /** pop_front needs an element: dropping the oldest needs room for one event. */
  predicate ValidParams(p: Params) { p.policy.DropOldest? ==> p.capacity >= 1 }

  /** What the worker has put into the output stream. */
  datatype Record = Logged(event: LogEvent) | Summary(count: UInt64, tsMs: UInt64)

  datatype Pc =
    | LoopHead        // before while (!stop_)
    | BeforeLock      // stop_ was false, mutex not yet taken
    | CheckPredicate  // mutex held, before the wait predicate
    | AboutToBlock    // mutex held, the predicate was false
    | Blocked         // asleep in wait, mutex released
    | Notified        // woken, mutex not yet taken again
    | Decide          // mutex held, the predicate was true
    | Writing         // writing batch[next..]
    | Exchange        // before dropped_count_.exchange(0)
    | Reporting       // holding the exchanged count
    | FinalCheck      // after the loop, before reading queue_.empty() without the mutex
    | FinalSwap
    | FinalWriting
    | Done

  datatype Closing = Running | StopStored | NotifySent

  /** What happened so far; read by no step. */
  datatype History = History(
    accepted: seq<LogEvent>,        // every event that passed the level filter
    epochs: seq<seq<LogEvent>>,     // those accepted before each swap, swap by swap
    current: seq<LogEvent>,         // those accepted since the last swap
    drops: nat,                     // events dropped
    unreported: nat,                // those dropped since the last exchange
    wraps: nat,                     // overflows of the 64-bit counter
    late: nat)                      // events accepted after stop_ was set

  datatype State = State(
    queue: seq<LogEvent>, stop: bool, dropped: UInt64, closing: Closing,
    pc: Pc, batch: seq<LogEvent>, next: nat, report: UInt64,
    written: seq<Record>, history: History)

  datatype Label =
    | Log(event: LogEvent, now: UInt64)
    | StopStore
    | NotifyAll
    | SpuriousWake
    | Worker(now: UInt64)

  const INIT: State :=
    State([], false, 0, Running, LoopHead, [], 0, 0, [], History([], [], [], 0, 0, 0, 0))

  predicate HoldsMutex(pc: Pc) { pc.CheckPredicate? || pc.AboutToBlock? || pc.Decide? }

  predicate Enabled(p: Params, s: State, l: Label) {
    match l
    case Log(event, _) => ShouldLog(event.level, p.level) ==> !HoldsMutex(s.pc)
    case StopStore => s.closing.Running?
    case NotifyAll => s.closing.StopStored?
    case SpuriousWake => s.pc.Blocked?
    case Worker(_) => !s.pc.Blocked? && !s.pc.Done?
  }

  function Stamp(event: LogEvent, now: UInt64): LogEvent {
    if event.tsMs == 0 then event.(tsMs := now) else event
  }

  function Wake(pc: Pc): Pc { if pc.Blocked? then Notified else pc }

  /** fetch_add(1) on the 64-bit drop counter. */
  function Bumped(count: UInt64): UInt64 { if count + 1 == TWO_64 then 0 else count + 1 }

  function Accepted(s: State, event: LogEvent): History {
    s.history.(
      accepted := s.history.accepted + [event], current := s.history.current + [event],
      late := s.history.late + if s.stop then 1 else 0)
  }

  /** A drop noted, with the counter's overflow if it is one. */
  function Dropped(h: History, count: UInt64): History {
    h.(drops := h.drops + 1, unreported := h.unreported + 1,
       wraps := h.wraps + if count + 1 == TWO_64 then 1 else 0)
  }

  /** enqueue, under the mutex. */
  function Enqueue(p: Params, s: State, event: LogEvent): State
    requires ValidParams(p)
  {
    var h := Accepted(s, event);
    if |s.queue| < p.capacity then
      s.(queue := s.queue + [event], pc := Wake(s.pc), history := h)
    else
      var counted := s.(dropped := Bumped(s.dropped), history := Dropped(h, s.dropped));
      if p.policy.DropNewest? then counted
      else counted.(queue := s.queue[1..] + [event], pc := Wake(s.pc))
  }

  function LogCall(p: Params, s: State, event: LogEvent, now: UInt64): State
    requires ValidParams(p)
  {
    if ShouldLog(event.level, p.level) then Enqueue(p, s, Stamp(event, now)) else s
  }

  function SwapQueue(s: State, pc: Pc): State {
    s.(batch := s.queue, next := 0, queue := [], pc := pc,
       history := s.history.(epochs := s.history.epochs + [s.history.current], current := []))
  }

  function WriteNext(s: State): State
    requires s.next < |s.batch|
  {
    s.(written := s.written + [Logged(s.batch[s.next])], next := s.next + 1)
  }

  /** dropped_count_.exchange(0), without the mutex. */
  function ExchangeCount(s: State): State {
    s.(report := s.dropped, dropped := 0, pc := Reporting, history := s.history.(unreported := 0))
  }

  /** The next action of run(). */
  function WorkerNext(s: State, now: UInt64): State
    requires !s.pc.Blocked? && !s.pc.Done?
  {
    match s.pc
    case LoopHead => s.(pc := if s.stop then FinalCheck else BeforeLock)
    case BeforeLock => s.(pc := CheckPredicate)
    case CheckPredicate => s.(pc := if s.stop || s.queue != [] then Decide else AboutToBlock)
    case AboutToBlock => s.(pc := Blocked)
    case Notified => s.(pc := CheckPredicate)
    case Decide => if s.stop && s.queue == [] then s.(pc := FinalCheck) else SwapQueue(s, Writing)
    case Writing => if s.next < |s.batch| then WriteNext(s) else s.(pc := Exchange)
    case Exchange => ExchangeCount(s)
    case Reporting =>
      s.(written := s.written + if s.report > 0 then [Summary(s.report, now)] else [],
         report := 0, pc := LoopHead)
    case FinalCheck => s.(pc := if s.queue == [] then Done else FinalSwap)
    case FinalSwap => SwapQueue(s, FinalWriting)
    case FinalWriting => if s.next < |s.batch| then WriteNext(s) else s.(pc := Done)
  }

  function Next(p: Params, s: State, l: Label): State
    requires ValidParams(p) && Enabled(p, s, l)
  {
    match l
    case Log(event, now) => LogCall(p, s, event, now)
    case StopStore => s.(stop := true, closing := StopStored)
    case NotifyAll => s.(pc := Wake(s.pc), closing := NotifySent)
    case SpuriousWake => s.(pc := Notified)
    case Worker(now) => WorkerNext(s, now)
  }

  /** Every label of the trace is enabled when its turn comes. */
  predicate Allowed(p: Params, s: State, trace: seq<Label>)
    requires ValidParams(p)
    decreases trace
  {
    trace == [] || (Enabled(p, s, trace[0]) && Allowed(p, Next(p, s, trace[0]), trace[1..]))
  }

  function Run(p: Params, s: State, trace: seq<Label>): State
    requires ValidParams(p) && Allowed(p, s, trace)
    decreases trace
  {
    if trace == [] then s else Run(p, Next(p, s, trace[0]), trace[1..])
  }
}
