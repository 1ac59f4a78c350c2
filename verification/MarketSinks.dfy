/** Sinks, the fan-out to several of them, and the dispatcher in front. */
module MarketSinks {
  import opened Prelude
  import opened MarketEvents
  import opened EventParser
  import opened EventExactness

  /** A sink seen from outside: the calls it received, in order. */
  class MarketSink {
    var calls: seq<SinkCall>

    constructor ()
      ensures calls == []
    {
      calls := [];
    }

    method Receive(call: SinkCall)
      modifies this
      ensures calls == old(calls) + [call]
    {
      calls := calls + [call];
    }
  }

  function Copies(call: SinkCall, n: nat): seq<SinkCall> {
    if n == 0 then [] else Copies(call, n - 1) + [call]
  }

  /** How often a sink stands in the list; the references may alias. */
  ghost function Occurrences(sinks: seq<MarketSink>, sink: MarketSink): nat {
    if sinks == [] then 0
    else
      var last := |sinks| - 1;
      Occurrences(sinks[..last], sink) + if sinks[last] == sink then 1 else 0
  }

  lemma {:induction false} OccursOnce(sinks: seq<MarketSink>, i: nat)
    requires i < |sinks| && forall j, k :: 0 <= j < k < |sinks| ==> sinks[j] != sinks[k]
    ensures Occurrences(sinks, sinks[i]) == 1
  {
    var last := |sinks| - 1;
    if i == last {
      NeverOccurs(sinks[..last], sinks[i]);
    } else {
      OccursOnce(sinks[..last], i);
    }
  }

  lemma {:induction false} NeverOccurs(sinks: seq<MarketSink>, sink: MarketSink)
    requires sink !in sinks
    ensures Occurrences(sinks, sink) == 0
  {
    if sinks != [] {
      NeverOccurs(sinks[..|sinks| - 1], sink);
    }
  }

  /** Each call n times, in order. */
  function Spread(calls: seq<SinkCall>, n: nat): seq<SinkCall> {
    if calls == [] then [] else Spread(calls[..|calls| - 1], n) + Copies(calls[|calls| - 1], n)
  }

  lemma {:induction false} SpreadOnce(calls: seq<SinkCall>)
    ensures Spread(calls, 1) == calls
  {
    if calls != [] {
      var last := calls[|calls| - 1];
      SpreadOnce(calls[..|calls| - 1]);
      assert Copies(last, 1) == Copies(last, 0) + [last] == [last];
    }
  }

  class FanoutSink {
    const sinks: seq<MarketSink>

    constructor (sinks: seq<MarketSink>)
      ensures this.sinks == sinks
    {
      this.sinks := sinks;
    }

    /** on_snapshot, on_delta, on_trade and on_status: the same call on each sink, in order. */
    method Broadcast(call: SinkCall)
      modifies sinks
      ensures forall s :: s in sinks ==> s.calls == old(s.calls) + Copies(call, Occurrences(sinks, s))
    {
      for i := 0 to |sinks|
        invariant forall s :: s in sinks ==> s.calls == old(s.calls) + Copies(call, Occurrences(sinks[..i], s))
      {
        assert sinks[..i + 1][..i] == sinks[..i];
        sinks[i].Receive(call);
      }
      assert sinks[..|sinks|] == sinks;
    }

    /** Over any run of broadcasts every sink receives the same calls in the same order. */
    method BroadcastAll(calls: seq<SinkCall>)
      modifies sinks
      ensures forall s :: s in sinks ==> s.calls == old(s.calls) + Spread(calls, Occurrences(sinks, s))
      ensures (forall j, k :: 0 <= j < k < |sinks| ==> sinks[j] != sinks[k]) ==>
                forall i :: 0 <= i < |sinks| ==> sinks[i].calls == old(sinks[i].calls) + calls
    {
      for n := 0 to |calls|
        invariant forall s :: s in sinks ==> s.calls == old(s.calls) + Spread(calls[..n], Occurrences(sinks, s))
      {
        Broadcast(calls[n]);
        assert calls[..n + 1][..n] == calls[..n];
      }
      assert calls[..|calls|] == calls;
      if forall j, k :: 0 <= j < k < |sinks| ==> sinks[j] != sinks[k] {
        SpreadOnce(calls);
        forall i | 0 <= i < |sinks|
          ensures Occurrences(sinks, sinks[i]) == 1
        {
          OccursOnce(sinks, i);
        }
      }
    }
  }

  lemma SpreadCalls(w: Wire, n: nat)
    ensures Spread(CallsOf(w), n) == if Decode(w).Ok? then Copies(Decode(w).value, n) else []
  {
    if Decode(w).Ok? {
      var call := Decode(w).value;
      assert [call][..0] == [] && Spread([], n) == [];
    }
  }

  /** The dispatcher over a fan-out; a sink of its own is the fan-out to it alone. */
  class Dispatcher {
    const sink: FanoutSink

    constructor (sink: FanoutSink)
      ensures this.sink == sink
    {
      this.sink := sink;
    }

    /** Exactly one call on the sink if the message decodes, and none otherwise. */
    method OnMessage(w: Wire) returns (r: Result<(), ParseError>)
      modifies sink.sinks
      ensures r == if Decode(w).Ok? then Ok(()) else Err(Decode(w).error)
      ensures FailsWith(r, Fault(w))
      ensures forall s :: s in sink.sinks ==>
                s.calls == old(s.calls) + Spread(CallsOf(w), Occurrences(sink.sinks, s))
    {
      r := Route(w);
      DecodeFails(w);
      forall s | s in sink.sinks
        ensures s.calls == old(s.calls) + Spread(CallsOf(w), Occurrences(sink.sinks, s))
      {
        SpreadCalls(w, Occurrences(sink.sinks, s));
      }
    }

    /** The call the message leads to, made on every sink as often as it is listed. */
    method Route(w: Wire) returns (r: Result<(), ParseError>)
      modifies sink.sinks
      ensures r == if Decode(w).Ok? then Ok(()) else Err(Decode(w).error)
      ensures forall s :: s in sink.sinks ==>
                s.calls == if Decode(w).Ok?
                           then old(s.calls) + Copies(Decode(w).value, Occurrences(sink.sinks, s))
                           else old(s.calls)
    {
      var kind := ParseMessageType(w);
      if kind.Err? {
        return Err(kind.error);
      }
      if kind.value == ORDERBOOK_SNAPSHOT {
        var snapshot := ParseSnapshot(w);
        if snapshot.Err? {
          return Err(snapshot.error);
        }
        sink.Broadcast(OnSnapshot(snapshot.value));
        return Ok(());
      }
      if kind.value == ORDERBOOK_DELTA {
        var delta := ParseDelta(w);
        if delta.Err? {
          return Err(delta.error);
        }
        sink.Broadcast(OnDelta(delta.value));
        return Ok(());
      }
      if kind.value == TRADE {
        var trade := ParseTrade(w);
        if trade.Err? {
          return Err(trade.error);
        }
        sink.Broadcast(OnTrade(trade.value));
        return Ok(());
      }
      return Err(UnsupportedType);
    }
  }
}
