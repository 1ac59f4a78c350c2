/** The stages of a connection, in order and each once, for every client of every run. */
module FeedStages {
  import opened Prelude
  import opened EventParser
  import opened WsUrl
  import opened FeedSteps
  import opened FeedProofs
  import opened FeedRuns

  /** What has to succeed before a client reads, in this order. */
  const STAGES: seq<Op> := [Resolve, Connect, SslHandshake, WsHandshake]

  function OneStage(c: nat, e: Event): seq<Op> {
    if e.Succeed? && e.p.client == c && e.p.op != Read && e.p.op != Write then [e.p.op] else []
  }

  /** The stages of a client that succeeded in a trace, in order. */
  function Passed(c: nat, trace: seq<Event>): seq<Op> {
    if trace == [] then [] else Passed(c, trace[..|trace| - 1]) + OneStage(c, trace[|trace| - 1])
  }

  function Outstanding(s: Feed, c: nat, op: Op): nat { s.pending[Pending(c, op)] }

  /** The stages passed when the operation may be outstanding. */
  function Before(op: Op): seq<Op>
    requires op != Write
  {
    match op
    case Resolve => []
    case Connect => [Resolve]
    case SslHandshake => [Resolve, Connect]
    case WsHandshake => [Resolve, Connect, SslHandshake]
    case Read => [Resolve, Connect, SslHandshake, WsHandshake]
  }

  /** At most one stage or read is outstanding on the client, and just the stages before it have passed. */
  predicate Staged(s: Feed, c: nat, passed: seq<Op>) {
    && passed <= STAGES
    && Outstanding(s, c, Resolve) + Outstanding(s, c, Connect) + Outstanding(s, c, SslHandshake)
       + Outstanding(s, c, WsHandshake) + Outstanding(s, c, Read) <= 1
    && (forall op :: op != Write && Outstanding(s, c, op) > 0 ==> passed == Before(op))
    && (c > s.client ==> passed == [] && forall op :: op != Write ==> Outstanding(s, c, op) == 0)
  }

  lemma Frame(s: Feed, t: Feed, c: nat, passed: seq<Op>)
    requires Staged(s, c, passed) && t.client >= s.client
    requires forall op :: op != Write ==> Outstanding(t, c, op) <= Outstanding(s, c, op)
    ensures Staged(t, c, passed)
  {
  }

  lemma ErrorLeaves(o: Options, s: Feed, code: WsError)
    ensures OnError(o, s, code).pending == s.pending && OnError(o, s, code).client == s.client
  {
  }

  /** A new client begins with nothing passed; the others keep what they have. */
  lemma TimerStages(o: Options, s: Feed, c: nat, passed: seq<Op>, refresh: Refresh)
    requires Staged(s, c, passed)
    ensures Staged(OnTimer(o, s, refresh), c, passed)
  {
    var made := NewClient(TimerDue(s, refresh));
    var t := OnTimer(o, s, refresh);
    if ParseWsUrl(o.wsUrl).Err? {
      ErrorLeaves(o, made, InvalidUrl);
      Frame(s, t, c, passed);
    } else {
      var p := Pending(made.client, Resolve);
      assert t == Started(made, p);
      assert forall op :: Outstanding(t, c, op) ==
                          Outstanding(s, c, op) + if Pending(c, op) == p then 1 else 0;
    }
  }

  /** Opening starts a write at most, and that on the current client. */
  lemma OpenAdds(o: Options, s: Feed, c: nat, op: Op)
    requires op != Write
    ensures OnOpen(o, s).client == s.client && Outstanding(OnOpen(o, s), c, op) == Outstanding(s, c, op)
  {
  }

  lemma MessageAdds(o: Options, s: Feed, message: Wire)
    ensures OnMessage(o, s, message).client == s.client && OnMessage(o, s, message).pending == s.pending
  {
  }

  /** A success starts nothing on other clients but a write. */
  lemma SuccessAdds(o: Options, s: Feed, p: Pending, message: Wire, c: nat, op: Op)
    requires p in s.pending && op != Write && (c != p.client || p.op == Read || p.op == Write)
    ensures OnSuccess(o, s, p, message).client == s.client
    ensures Outstanding(OnSuccess(o, s, p, message), c, op) <= Outstanding(s, c, op)
  {
    var done := Finished(s, p);
    if p.op == Read {
      MessageAdds(o, done, message);
    } else if p.op == WsHandshake {
      OpenAdds(o, done, c, op);
    }
  }

  lemma OtherStages(o: Options, s: Feed, c: nat, passed: seq<Op>, p: Pending, message: Wire)
    requires Staged(s, c, passed) && p in s.pending && (c != p.client || p.op == Read || p.op == Write)
    ensures Staged(OnSuccess(o, s, p, message), c, passed)
  {
    var t := OnSuccess(o, s, p, message);
    SuccessAdds(o, s, p, message, c, Resolve);
    forall op | op != Write
      ensures Outstanding(t, c, op) <= Outstanding(s, c, op)
    {
      SuccessAdds(o, s, p, message, c, op);
    }
    Frame(s, t, c, passed);
  }

  /** A stage that succeeds starts the next one. */
  lemma OwnStages(o: Options, s: Feed, c: nat, passed: seq<Op>, op: Op, message: Wire)
    requires Staged(s, c, passed) && Pending(c, op) in s.pending
    requires op == Resolve || op == Connect || op == SslHandshake
    ensures Staged(OnSuccess(o, s, Pending(c, op), message), c, passed + [op])
  {
    var p := Pending(c, op);
    var t := OnSuccess(o, s, p, message);
    assert Outstanding(s, c, op) == 1 && passed == Before(op);
    assert t == s.(pending := s.pending - multiset{p} + multiset{Pending(c, NextOp(op))});
    assert passed + [op] == Before(NextOp(op));
  }

  lemma HandshakeEnds(s: Feed, c: nat, passed: seq<Op>, op: Op)
    requires Staged(s, c, passed) && Pending(c, WsHandshake) in s.pending && op != Write
    ensures Outstanding(Finished(s, Pending(c, WsHandshake)), c, op) == 0
    ensures passed == Before(WsHandshake) && c <= s.client
  {
    assert Outstanding(s, c, WsHandshake) > 0;
  }

  lemma OnlyRead(s: Feed, c: nat)
    requires (forall op :: op != Write ==> Outstanding(s, c, op) == 0) && c <= s.client
    ensures Staged(Started(s, Pending(c, Read)), c, STAGES)
  {
    var t := Started(s, Pending(c, Read));
    forall op | op != Write
      ensures Outstanding(t, c, op) == if op == Read then 1 else 0
    {
      assert Outstanding(s, c, op) == 0;
    }
    assert Before(Read) == STAGES;
  }

  lemma OpenStages(o: Options, s: Feed, c: nat, passed: seq<Op>, message: Wire)
    requires Staged(s, c, passed) && Pending(c, WsHandshake) in s.pending
    ensures Staged(OnSuccess(o, s, Pending(c, WsHandshake), message), c, passed + [WsHandshake])
  {
    var done := Finished(s, Pending(c, WsHandshake));
    var connected := OnOpen(o, done);
    forall op | op != Write
      ensures Outstanding(connected, c, op) == 0
    {
      OpenAdds(o, done, c, op);
      HandshakeEnds(s, c, passed, op);
    }
    HandshakeEnds(s, c, passed, Read);
    OpenAdds(o, done, c, Read);
    OnlyRead(connected, c);
    assert passed + [WsHandshake] == STAGES;
  }

  lemma SuccessStages(o: Options, s: Feed, c: nat, passed: seq<Op>, p: Pending, message: Wire)
    requires Staged(s, c, passed) && p in s.pending
    ensures Staged(OnSuccess(o, s, p, message), c, passed + OneStage(c, Succeed(p, message)))
  {
    assert passed + [] == passed;
    if p.client != c || p.op == Read || p.op == Write {
      OtherStages(o, s, c, passed, p, message);
    } else if p.op == WsHandshake {
      OpenStages(o, s, c, passed, message);
    } else {
      OwnStages(o, s, c, passed, p.op, message);
    }
  }

  lemma FailureStages(o: Options, s: Feed, c: nat, passed: seq<Op>, p: Pending, code: WsError)
    requires Staged(s, c, passed)
    ensures Staged(OnError(o, Finished(s, p), code), c, passed)
  {
    ErrorLeaves(o, Finished(s, p), code);
    Frame(s, OnError(o, Finished(s, p), code), c, passed);
  }

  lemma NextStages(o: Options, s: Feed, c: nat, passed: seq<Op>, e: Event)
    requires Staged(s, c, passed) && Enabled(s, e)
    ensures Staged(Next(o, s, e), c, passed + OneStage(c, e))
  {
    assert passed + [] == passed;
    match e
    case Succeed(p, message) => SuccessStages(o, s, c, passed, p, message);
    case SniFails(client) => FailureStages(o, s, c, passed, Pending(client, Connect), SslHandshakeFailed);
    case Fail(p) => FailureStages(o, s, c, passed, p, ErrorOf(p.op));
    case TimerHandler(refresh) => TimerStages(o, s, c, passed, refresh);
    case _ => Frame(s, Next(o, s, e), c, passed);
  }

  lemma StartStages(o: Options, headers: Headers, c: nat)
    ensures Staged(Start(o, headers), c, [])
  {
    var made := NewClient(Blank(o, headers));
    if ParseWsUrl(o.wsUrl).Err? {
      ErrorLeaves(o, made, InvalidUrl);
    }
  }

  lemma PassedSnoc(c: nat, trace: seq<Event>, e: Event)
    ensures Passed(c, trace + [e]) == Passed(c, trace) + OneStage(c, e)
  {
    assert (trace + [e])[..|trace|] == trace;
  }

  lemma {:induction false} RunStages(o: Options, s: Feed, c: nat, before: seq<Event>, trace: seq<Event>)
    requires Staged(s, c, Passed(c, before)) && Allowed(o, s, trace)
    ensures Staged(Run(o, s, trace), c, Passed(c, before + trace))
    decreases trace
  {
    if trace == [] {
      assert before + [] == before;
    } else {
      NextStages(o, s, c, Passed(c, before), trace[0]);
      PassedSnoc(c, before, trace[0]);
      RunStages(o, Next(o, s, trace[0]), c, before + [trace[0]], trace[1..]);
      Assoc(before, [trace[0]], trace[1..]);
      assert [trace[0]] + trace[1..] == trace;
    }
  }

  /**
   * The stages of a connection. In every run and for every client, stray completions of
   * replaced clients included: the stages passed are the first of resolve, connect, TLS
   * handshake and websocket handshake, each once and in that order; a stage is outstanding
   * only when exactly those before it have passed, a read only when all four have, and never
   * two of these at once.
   */
  lemma StagesInOrder(o: Options, headers: Headers, trace: seq<Event>, c: nat)
    requires Allowed(o, Start(o, headers), trace)
    ensures var s := Run(o, Start(o, headers), trace);
            var passed := Passed(c, trace);
            && passed <= [Resolve, Connect, SslHandshake, WsHandshake]
            && (Pending(c, Resolve) in s.pending ==> passed == [])
            && (Pending(c, Connect) in s.pending ==> passed == [Resolve])
            && (Pending(c, SslHandshake) in s.pending ==> passed == [Resolve, Connect])
            && (Pending(c, WsHandshake) in s.pending ==> passed == [Resolve, Connect, SslHandshake])
            && (Pending(c, Read) in s.pending ==> passed == [Resolve, Connect, SslHandshake, WsHandshake])
            && Outstanding(s, c, Resolve) + Outstanding(s, c, Connect) + Outstanding(s, c, SslHandshake)
               + Outstanding(s, c, WsHandshake) + Outstanding(s, c, Read) <= 1
  {
    StartStages(o, headers, c);
    RunStages(o, Start(o, headers), c, [], trace);
    assert [] + trace == trace;
    var s := Run(o, Start(o, headers), trace);
    forall op | op != Write && Pending(c, op) in s.pending
      ensures Passed(c, trace) == Before(op)
    {
      assert Outstanding(s, c, op) > 0;
    }
  }

  lemma {:induction false} PassedGrows(c: nat, before: seq<Event>, rest: seq<Event>)
    ensures Passed(c, before) <= Passed(c, before + rest)
    decreases rest
  {
    if rest == [] {
      assert before + [] == before;
    } else {
      var all := before + rest;
      assert all[..|all| - 1] == before + rest[..|rest| - 1];
      PassedGrows(c, before, rest[..|rest| - 1]);
    }
  }

  /** Once a client has had a read outstanding, all four stages stand in the trace for good. */
  lemma ReadersPassedAll(o: Options, headers: Headers, before: seq<Event>, rest: seq<Event>, c: nat)
    requires Allowed(o, Start(o, headers), before) && Allowed(o, Start(o, headers), before + rest)
    requires Pending(c, Read) in Run(o, Start(o, headers), before).pending
    ensures Passed(c, before + rest) == [Resolve, Connect, SslHandshake, WsHandshake]
  {
    StagesInOrder(o, headers, before, c);
    StagesInOrder(o, headers, before + rest, c);
    PassedGrows(c, before, rest);
  }
}
