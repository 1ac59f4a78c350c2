/** The encoding of events as JSON, and what decoding it through the dispatcher yields. */
module EventRoundTrip {
  import opened Prelude
  import opened JsonTree
  import opened JsonText
  import opened MarketEvents
  import opened EventParser

  function SideName(side: BookSide): string { if side == Yes then "yes" else "no" }

  function LevelTrees(levels: seq<PriceLevel>): (items: seq<Json>)
    ensures |items| == |levels|
    ensures forall i :: 0 <= i < |levels| ==> items[i] == JArray([JInt(levels[i].price), JInt(levels[i].size)])
  {
    seq(|levels|, i requires 0 <= i < |levels| => JArray([JInt(levels[i].price), JInt(levels[i].size)]))
  }

  function SnapshotMembers(s: OrderbookSnapshot): seq<Member> {
    [Member("market_ticker", JString(s.market)),
     Member("yes", JArray(LevelTrees(s.yes))),
     Member("no", JArray(LevelTrees(s.no)))]
  }

  function DeltaMembers(d: OrderbookDelta): seq<Member> {
    [Member("market_ticker", JString(d.market)), Member("price", JInt(d.price)),
     Member("delta", JInt(d.delta)), Member("side", JString(SideName(d.side)))]
    + if d.clientOrderId.Some? then [Member("client_order_id", JString(d.clientOrderId.value))] else []
  }

  function TradeMembers(t: TradeEvent): seq<Member> {
    [Member("market_ticker", JString(t.market)), Member("yes_price", JInt(t.yesPrice)),
     Member("no_price", JInt(t.noPrice)), Member("count", JInt(t.count)),
     Member("taker_side", JString(SideName(t.takerSide))), Member("ts", JInt(t.ts / NANOS_PER_SECOND))]
  }

  function Envelope(kind: string, sequence: seq<Member>, msg: seq<Member>): Json {
    JObject([Member("type", JString(kind))] + sequence + [Member("msg", JObject(msg))])
  }

  /** The wire form of an event; the dispatcher knows none for a status update. */
  function Encode(c: SinkCall): Json
    requires !c.OnStatus?
  {
    match c
    case OnSnapshot(s) => Envelope(ORDERBOOK_SNAPSHOT, [Member("seq", JInt(s.sequence))], SnapshotMembers(s))
    case OnDelta(d) => Envelope(ORDERBOOK_DELTA, [Member("seq", JInt(d.sequence))], DeltaMembers(d))
    case OnTrade(t) => Envelope(TRADE, [], TradeMembers(t))
  }

  predicate GoodLevels(levels: seq<PriceLevel>) { forall i :: 0 <= i < |levels| ==> levels[i].price <= PRICE_MAX }

  /** Events the exchange can send: prices in cents, no time except on trades, and there whole seconds. */
  predicate Encodable(c: SinkCall) {
    match c
    case OnSnapshot(s) => GoodLevels(s.yes) && GoodLevels(s.no) && s.ts == 0
    case OnDelta(d) => d.price <= PRICE_MAX && d.ts == 0
    case OnTrade(t) =>
      && t.yesPrice <= PRICE_MAX && t.noPrice <= PRICE_MAX
      && t.ts % NANOS_PER_SECOND == 0 && IsInt64(t.ts)
    case OnStatus(_) => false
  }

  lemma LevelsRoundTrip(levels: seq<PriceLevel>)
    requires GoodLevels(levels)
    ensures ParseEntries(LevelTrees(levels)) == Ok(levels)
  {
    LevelsExact(LevelTrees(levels));
    assert forall i :: 0 <= i < |levels| ==> GoodEntry(LevelTrees(levels)[i]);
    assert ParseEntries(LevelTrees(levels)).value == levels;
  }

  lemma EnvelopeFields(kind: string, sequence: UInt64, msg: seq<Member>)
    ensures var doc := Envelope(kind, [Member("seq", JInt(sequence))], msg);
            Field(doc, "type") == Some(JString(kind)) && GetSequence(doc) == Ok(sequence) && GetMessage(doc) == Ok(msg)
  {
    var doc := Envelope(kind, [Member("seq", JInt(sequence))], msg);
    assert doc.members ==
           [Member("type", JString(kind)), Member("seq", JInt(sequence)), Member("msg", JObject(msg))];
    FindFirst(doc.members, "type", 0);
    FindFirst(doc.members, "seq", 1);
    FindFirst(doc.members, "msg", 2);
  }

  lemma TradeEnvelopeFields(kind: string, msg: seq<Member>)
    ensures var doc := Envelope(kind, [], msg);
            Field(doc, "type") == Some(JString(kind)) && GetMessage(doc) == Ok(msg)
  {
    var doc := Envelope(kind, [], msg);
    assert doc.members == [Member("type", JString(kind)), Member("msg", JObject(msg))];
    FindFirst(doc.members, "type", 0);
    FindFirst(doc.members, "msg", 1);
  }

  lemma SnapshotRoundTrip(s: OrderbookSnapshot)
    requires GoodLevels(s.yes) && GoodLevels(s.no)
    ensures var m := SnapshotMembers(s);
            GetString(m, "market_ticker") == Ok(s.market) &&
            GetLevels(m, "yes") == Ok(s.yes) && GetLevels(m, "no") == Ok(s.no)
  {
    var m := SnapshotMembers(s);
    FindFirst(m, "market_ticker", 0);
    FindFirst(m, "yes", 1);
    FindFirst(m, "no", 2);
    LevelsRoundTrip(s.yes);
    LevelsRoundTrip(s.no);
  }

  lemma DeltaRoundTrip(d: OrderbookDelta)
    requires d.price <= PRICE_MAX && d.ts == 0
    ensures DeltaFields(d.sequence, DeltaMembers(d)) == Ok(d)
  {
    var m := DeltaMembers(d);
    FindFirst(m, "market_ticker", 0);
    FindFirst(m, "price", 1);
    FindFirst(m, "delta", 2);
    FindFirst(m, "side", 3);
    FindFirst(m, "client_order_id", 4);
  }

  lemma TradeRoundTrip(t: TradeEvent)
    requires Encodable(OnTrade(t))
    ensures TradeFields(TradeMembers(t)) == Ok(t)
  {
    TradeFieldsRead(t);
  }

  /** Every trade with prices in range and whole seconds that are themselves 64-bit is read back. */
  lemma TradeFieldsRead(t: TradeEvent)
    requires t.yesPrice <= PRICE_MAX && t.noPrice <= PRICE_MAX
    requires t.ts % NANOS_PER_SECOND == 0 && IsInt64(t.ts / NANOS_PER_SECOND)
    ensures TradeFields(TradeMembers(t)) == Ok(t)
  {
    var m := TradeMembers(t);
    FindFirst(m, "market_ticker", 0);
    FindFirst(m, "yes_price", 1);
    FindFirst(m, "no_price", 2);
    FindFirst(m, "count", 3);
    FindFirst(m, "taker_side", 4);
    FindFirst(m, "ts", 5);
  }

  /** Decoding inverts encoding: exactly one sink call, of the event's kind, with exactly that event. */
  lemma DecodeInvertsEncode(c: SinkCall, text: string)
    requires Encodable(c) && text != ""
    ensures Decode(Wire(text, Some(Encode(c)))) == Ok(c)
  {
    match c
    case OnSnapshot(s) =>
      EnvelopeFields(ORDERBOOK_SNAPSHOT, s.sequence, SnapshotMembers(s));
      SnapshotRoundTrip(s);
    case OnDelta(d) =>
      EnvelopeFields(ORDERBOOK_DELTA, d.sequence, DeltaMembers(d));
      DeltaRoundTrip(d);
    case OnTrade(t) =>
      TradeEnvelopeFields(TRADE, TradeMembers(t));
      TradeRoundTrip(t);
  }

  lemma EntriesGood(entries: seq<Json>)
    requires ParseEntries(entries).Ok?
    ensures GoodLevels(ParseEntries(entries).value)
  {
  }

  const SECONDS_MAX: int := 9_223_372_036

  /** The nanoseconds fit exactly for seconds of at most 9223372036 either way. */
  lemma TimestampFitsIff(obj: seq<Member>)
    ensures var seconds := GetInt(obj, "ts");
            IsInt64(OptionalTimestamp(obj)) <==>
            (seconds.Ok? ==> -SECONDS_MAX <= seconds.value <= SECONDS_MAX)
  {
  }

  /** The message is no trade, or its time is absent, no 64-bit integer, or at most SECONDS_MAX either way. */
  predicate TimeFits(w: Wire) {
    match ParseMessageType(w)
    case Ok(kind) =>
      (kind == TRADE && w.doc.Some? && GetMessage(w.doc.value).Ok? ==>
         var seconds := GetInt(GetMessage(w.doc.value).value, "ts");
         seconds.Ok? ==> -SECONDS_MAX <= seconds.value <= SECONDS_MAX)
    case Err(_) => true
  }

  lemma TradeTime(w: Wire)
    requires Decode(w).Ok?
    ensures Decode(w).value.OnTrade? ==>
              && ParseMessageType(w) == Ok(TRADE) && GetMessage(w.doc.value).Ok?
              && Decode(w).value.trade.ts == OptionalTimestamp(GetMessage(w.doc.value).value)
    ensures !Decode(w).value.OnTrade? ==> ParseMessageType(w) != Ok(TRADE)
  {
  }

  /**
   * Whatever is decoded, from any message, is an event the encoding covers, if and only if
   * the message gives no time whose nanoseconds leave 64 bits; the code multiplies without
   * looking.
   */
  lemma DecodedIsEncodableIff(w: Wire)
    requires Decode(w).Ok?
    ensures Encodable(Decode(w).value) <==> TimeFits(w)
  {
    var c := Decode(w).value;
    TradeTime(w);
    if c.OnTrade? {
      TimestampFitsIff(GetMessage(w.doc.value).value);
    }
    if c.OnSnapshot? {
      var msg := GetMessage(w.doc.value).value;
      EntriesGood(Find(msg, "yes").value.items);
      EntriesGood(Find(msg, "no").value.items);
    }
  }

  /** A trade one second too late: it decodes, to a time outside int64. */
  lemma LateTradeOverflows(text: string)
    requires text != ""
    ensures var msg := [Member("market_ticker", JString("M")), Member("yes_price", JInt(1)),
                        Member("no_price", JInt(99)), Member("count", JInt(1)),
                        Member("taker_side", JString("yes")), Member("ts", JInt(SECONDS_MAX + 1))];
            var c := Decode(Wire(text, Some(Envelope(TRADE, [], msg))));
            c.Ok? && c.value.OnTrade? && c.value.trade.ts == 9_223_372_037_000_000_000 && !IsInt64(c.value.trade.ts)
  {
    var t := TradeEvent("M", 1, 99, 1, Yes, (SECONDS_MAX + 1) * NANOS_PER_SECOND);
    TradeEnvelopeFields(TRADE, TradeMembers(t));
    TradeFieldsRead(t);
  }

  /**
   * So decoding, encoding and decoding again changes nothing unless the time overflowed,
   * and no status update ever comes out.
   */
  lemma DecodeIdempotent(w: Wire)
    requires Decode(w).Ok?
    ensures !Decode(w).value.OnStatus?
    ensures TimeFits(w) ==> Decode(Wire(w.text, Some(Encode(Decode(w).value)))) == Decode(w)
  {
    DecodedIsEncodableIff(w);
    if TimeFits(w) {
      DecodeInvertsEncode(Decode(w).value, w.text);
    }
  }

  lemma EncodePrintable(c: SinkCall)
    requires !c.OnStatus?
    ensures Printable(Encode(c))
  {
    match c
    case OnSnapshot(s) =>
      LevelsPrintable(s.yes);
      LevelsPrintable(s.no);
      assert Printable(JObject(SnapshotMembers(s)));
    case OnDelta(d) => assert Printable(JObject(DeltaMembers(d)));
    case OnTrade(t) => assert Printable(JObject(TradeMembers(t)));
  }

  lemma LevelsPrintable(levels: seq<PriceLevel>)
    ensures Printable(JArray(LevelTrees(levels)))
  {
  }

  /** The same from the bytes on: encoded, printed as JSON text, parsed and decoded. */
  lemma TextRoundTrip(c: SinkCall)
    requires Encodable(c)
    ensures var text := Print(Encode(c));
            Decode(Wire(text, ParseDocument(text))) == Ok(c)
  {
    EncodePrintable(c);
    PrintRoundTrip(Encode(c));
    PrintHead(Encode(c));
    DecodeInvertsEncode(c, Print(Encode(c)));
  }
}
