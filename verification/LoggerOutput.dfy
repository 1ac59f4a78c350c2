/** The file the logger leaves: which records, in which lines, and what reading it back says. */
module LoggerOutput {
  import opened Prelude
  import opened JsonTree
  import opened LogLine
  import opened LineMeaning
  import opened LoggerSteps
  import opened LoggerProofs

  // ---------------------------------------------------------------- the file it leaves

  /** The event whose line stands for a record. */
  function RecordEvent(r: Record): LogEvent {
    match r
    case Logged(event) => event
    case Summary(count, tsMs) => SummaryEvent(count, tsMs)
  }

  function RecordEvents(written: seq<Record>): (events: seq<LogEvent>)
    ensures |events| == |written|
    ensures forall i :: 0 <= i < |written| ==> events[i] == RecordEvent(written[i])
  {
    seq(|written|, i requires 0 <= i < |written| => RecordEvent(written[i]))
  }

  /** The bytes in the output stream. */
  function Output(s: State): string { LogText(RecordEvents(s.written)) }

  ghost predicate AllOf(events: seq<LogEvent>, good: LogEvent -> bool) {
    forall i :: 0 <= i < |events| ==> good(events[i])
  }

  lemma {:induction false} KeptAllOf(p: Params, epochs: seq<seq<LogEvent>>, good: LogEvent -> bool)
    requires AllOf(Flatten(epochs), good)
    ensures AllOf(KeptAll(p, epochs), good)
  {
    if epochs != [] {
      var front, last := epochs[..|epochs| - 1], epochs[|epochs| - 1];
      var all := Flatten(epochs);
      assert all[..|Flatten(front)|] == Flatten(front) && all[|Flatten(front)|..] == last;
      KeptAllOf(p, front, good);
      assert AllOf(last, good);
    }
  }

  lemma {:induction false} EventsHold(written: seq<Record>, good: LogEvent -> bool)
    requires AllOf(Events(written), good)
    ensures forall i :: 0 <= i < |written| && written[i].Logged? ==> good(written[i].event)
  {
    if written != [] {
      var front, last := written[..|written| - 1], written[|written| - 1];
      var all := Events(written);
      assert all[..|Events(front)|] == Events(front);
      EventsHold(front, good);
      if last.Logged? {
        assert all[|Events(front)|] == last.event;
      }
    }
  }

  /** Anything true of all events passed on is true of all events written. */
  lemma WrittenHold(p: Params, trace: seq<Label>, good: LogEvent -> bool, i: nat)
    requires ValidParams(p) && Allowed(p, INIT, trace) && AllOf(Admitted(p, trace), good)
    requires i < |Run(p, INIT, trace).written| && Run(p, INIT, trace).written[i].Logged?
    ensures good(Run(p, INIT, trace).written[i].event)
  {
    var s := Run(p, INIT, trace);
    WritesKeptEvents(p, trace);
    var epochs := s.history.epochs + [s.history.current];
    KeptAllOf(p, epochs, good);
    var all := KeptAll(p, epochs);
    assert all[..|Events(s.written)|] == Events(s.written);
    EventsHold(s.written, good);
  }

  lemma {:induction false} AdmittedLevels(p: Params, trace: seq<Label>)
    ensures AllOf(Admitted(p, trace), (e: LogEvent) => AtOrBehind(e.level, p.level))
  {
    if trace != [] {
      AdmittedLevels(p, trace[1..]);
    }
  }

  /** No event below the minimum level is ever written; a summary is a warning whatever that level is. */
  lemma LevelsRespected(p: Params, trace: seq<Label>, i: nat)
    requires ValidParams(p) && Allowed(p, INIT, trace) && i < |Run(p, INIT, trace).written|
    ensures var r := Run(p, INIT, trace).written[i];
            if r.Logged? then AtOrBehind(r.event.level, p.level) else RecordEvent(r).level == Warn
  {
    var good := (e: LogEvent) => AtOrBehind(e.level, p.level);
    if Run(p, INIT, trace).written[i].Logged? {
      AdmittedLevels(p, trace);
      WrittenHold(p, trace, good, i);
    }
  }

  /**
   * End to end. In every reachable state the output stream, read back line by line, is
   * exactly the trees of the records written so far, in order.
   */
  lemma OutputReadsBack(p: Params, trace: seq<Label>)
    requires ValidParams(p) && Allowed(p, INIT, trace)
    requires forall i :: 0 <= i < |Admitted(p, trace)| ==> FiniteDoubles(Admitted(p, trace)[i])
    ensures var s := Run(p, INIT, trace);
            var read := ReadLog(Output(s));
            && |read| == |s.written|
            && forall i :: 0 <= i < |read| ==> read[i] == Some(EventTree(RecordEvent(s.written[i])))
  {
    var s := Run(p, INIT, trace);
    var good := (e: LogEvent) => FiniteDoubles(e);
    var events := RecordEvents(s.written);
    forall i | 0 <= i < |events|
      ensures FiniteDoubles(events[i])
    {
      if s.written[i].Logged? {
        WrittenHold(p, trace, good, i);
      }
    }
    LogRoundTrip(events);
  }

  /** What a document read back has to say of a record. */
  predicate RecordRead(doc: Option<Json>, r: Record) {
    && doc.Some?
    && match r
       case Logged(event) => Says(doc.value, event)
       case Summary(count, tsMs) => SummarySays(doc.value, count, tsMs)
  }

  /**
   * And key by key. Each line of the output says of its record what was logged, under the
   * keys of the log, or of a summary when it was written and how many events were dropped.
   */
  lemma OutputSays(p: Params, trace: seq<Label>)
    requires ValidParams(p) && Allowed(p, INIT, trace)
    requires forall i :: 0 <= i < |Admitted(p, trace)| ==> FiniteDoubles(Admitted(p, trace)[i])
    ensures var s := Run(p, INIT, trace);
            var read := ReadLog(Output(s));
            |read| == |s.written| && forall i :: 0 <= i < |read| ==> RecordRead(read[i], s.written[i])
  {
    var s := Run(p, INIT, trace);
    OutputReadsBack(p, trace);
    forall i | 0 <= i < |s.written|
      ensures RecordRead(Some(EventTree(RecordEvent(s.written[i]))), s.written[i])
    {
      match s.written[i]
      case Logged(event) => TreeSays(event);
      case Summary(count, tsMs) => SummaryTreeSays(count, tsMs);
    }
  }

  /** The number of dropped events a summary's document gives. */
  function DroppedRead(doc: Option<Json>): int {
    if doc.None? then 0
    else
      match Field(doc.value, "fields")
      case Some(fields) =>
        (match Field(fields, "dropped")
         case Some(JInt(n)) => n
         case _ => 0)
      case None => 0
  }

  /** Those numbers added up, over the lines of summaries. */
  function ReadDrops(written: seq<Record>, read: seq<Option<Json>>): int
    requires |written| == |read|
  {
    if written == [] then 0
    else
      var n := |written| - 1;
      ReadDrops(written[..n], read[..n]) + if written[n].Summary? then DroppedRead(read[n]) else 0
  }

  lemma {:induction false} ReadDropsReported(written: seq<Record>, read: seq<Option<Json>>)
    requires |written| == |read| && forall i :: 0 <= i < |read| ==> RecordRead(read[i], written[i])
    ensures ReadDrops(written, read) == Reported(written)
  {
    if written != [] {
      var n := |written| - 1;
      assert RecordRead(read[n], written[n]);
      ReadDropsReported(written[..n], read[..n]);
    }
  }

  /**
   * Conservation, read from the file. The lines of events, the drops that the summaries'
   * lines give, what is still queued or being written, and what is counted but not yet
   * written, make up all events accepted; one overflow of the counter is 2^64 lost.
   */
  lemma FileAccounts(p: Params, trace: seq<Label>)
    requires ValidParams(p) && Allowed(p, INIT, trace)
    requires forall i :: 0 <= i < |Admitted(p, trace)| ==> FiniteDoubles(Admitted(p, trace)[i])
    ensures var s := Run(p, INIT, trace);
            var read := ReadLog(Output(s));
            && |read| == |s.written| && s.next <= |s.batch|
            && |Admitted(p, trace)| ==
               |Events(s.written)| + |Unwritten(s)| + |s.queue| + ReadDrops(s.written, read) + s.report + s.dropped
               + s.history.wraps * TWO_64
  {
    var s := Run(p, INIT, trace);
    OutputSays(p, trace);
    ReadDropsReported(s.written, ReadLog(Output(s)));
    Conservation(p, trace);
  }

  // ---------------------------------------------------------------- when a summary is written

  /** The times at which the worker came to report and had something to report. */
  function ReportTimes(p: Params, s: State, trace: seq<Label>): seq<UInt64>
    requires ValidParams(p) && Allowed(p, s, trace)
    decreases trace
  {
    if trace == [] then []
    else
      var l := trace[0];
      (if l.Worker? && s.pc.Reporting? && s.report > 0 then [l.now] else []) +
      ReportTimes(p, Next(p, s, l), trace[1..])
  }

  /** The times in the summaries written. */
  function SummaryTimes(written: seq<Record>): seq<UInt64> {
    if written == [] then []
    else
      var last := written[|written| - 1];
      SummaryTimes(written[..|written| - 1]) + if last.Summary? then [last.tsMs] else []
  }

  predicate SummariesPositive(written: seq<Record>) {
    forall i :: 0 <= i < |written| && written[i].Summary? ==> written[i].count > 0
  }

  /** A step writes a summary exactly when it reports, with its time, and never of nothing. */
  lemma StepReports(p: Params, s: State, l: Label)
    requires ValidParams(p) && Enabled(p, s, l) && SummariesPositive(s.written)
    ensures var t := Next(p, s, l);
            && SummariesPositive(t.written)
            && SummaryTimes(t.written) ==
               SummaryTimes(s.written) + if l.Worker? && s.pc.Reporting? && s.report > 0 then [l.now] else []
  {
    assert SummaryTimes(s.written) + [] == SummaryTimes(s.written);
    if l.Worker? {
      WorkerReports(s, l.now);
    } else {
      assert Next(p, s, l).written == s.written;
    }
  }

  lemma WorkerReports(s: State, now: UInt64)
    requires !s.pc.Blocked? && !s.pc.Done? && SummariesPositive(s.written)
    ensures var t := WorkerNext(s, now);
            && SummariesPositive(t.written)
            && SummaryTimes(t.written) ==
               SummaryTimes(s.written) + if s.pc.Reporting? && s.report > 0 then [now] else []
  {
    var t := WorkerNext(s, now);
    assert SummaryTimes(s.written) + [] == SummaryTimes(s.written);
    if |t.written| > |s.written| {
      assert t.written[..|t.written| - 1] == s.written;
    } else {
      assert t.written == s.written;
    }
  }

  lemma {:induction false} RunReports(p: Params, s: State, trace: seq<Label>)
    requires ValidParams(p) && Allowed(p, s, trace) && SummariesPositive(s.written)
    ensures var t := Run(p, s, trace);
            && SummariesPositive(t.written)
            && SummaryTimes(t.written) == SummaryTimes(s.written) + ReportTimes(p, s, trace)
    decreases trace
  {
    if trace == [] {
      assert SummaryTimes(s.written) + [] == SummaryTimes(s.written);
    } else {
      StepReports(p, s, trace[0]);
      var t, l := Next(p, s, trace[0]), trace[0];
      RunReports(p, t, trace[1..]);
      Assoc(SummaryTimes(s.written), if l.Worker? && s.pc.Reporting? && s.report > 0 then [l.now] else [],
            ReportTimes(p, t, trace[1..]));
    }
  }

  /** Summaries are written exactly when the worker reports a count, with that time, and none of nothing. */
  lemma SummariesWhenReported(p: Params, trace: seq<Label>)
    requires ValidParams(p) && Allowed(p, INIT, trace)
    ensures var s := Run(p, INIT, trace);
            SummariesPositive(s.written) && SummaryTimes(s.written) == ReportTimes(p, INIT, trace)
  {
    RunReports(p, INIT, trace);
    assert [] + ReportTimes(p, INIT, trace) == ReportTimes(p, INIT, trace);
  }
}
