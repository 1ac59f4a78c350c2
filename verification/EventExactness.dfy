/** Which messages decode, to what, and with which error the others fail, in terms of their members alone. */
module EventExactness {
  import opened Prelude
  import opened JsonTree
  import opened MarketEvents
  import opened EventParser

  // ---------------------------------------------------------------- what a message says

  /** A level as a list that begins with its price, at most 100 cents, and its size. */
  predicate EntrySays(entry: Json, level: PriceLevel) {
    && entry.JArray? && |entry.items| >= 2
    && entry.items[0] == JInt(level.price) && level.price <= 100 && entry.items[1] == JInt(level.size)
  }

  predicate LevelsSay(msg: seq<Member>, key: string, levels: seq<PriceLevel>) {
    match Find(msg, key)
    case Some(JArray(entries)) =>
      |entries| == |levels| && forall i :: 0 <= i < |entries| ==> EntrySays(entries[i], levels[i])
    case _ => false
  }

  predicate TextIs(msg: seq<Member>, key: string, text: string) { Find(msg, key) == Some(JString(text)) }

  predicate NumberIs(msg: seq<Member>, key: string, n: int) { Find(msg, key) == Some(JInt(n)) }

  predicate SideIs(msg: seq<Member>, key: string, side: BookSide) {
    TextIs(msg, key, if side.Yes? then "yes" else "no")
  }

  /** The message is an object of that type with an object in it. */
  predicate Carries(w: Wire, kind: string, msg: seq<Member>) {
    && w.text != "" && w.doc.Some?
    && Field(w.doc.value, "type") == Some(JString(kind)) && Field(w.doc.value, "msg") == Some(JObject(msg))
  }

  predicate SequenceIs(w: Wire, n: int) { w.doc.Some? && Field(w.doc.value, "seq") == Some(JInt(n)) }

  predicate SnapshotSays(msg: seq<Member>, s: OrderbookSnapshot) {
    TextIs(msg, "market_ticker", s.market) && LevelsSay(msg, "yes", s.yes) && LevelsSay(msg, "no", s.no) && s.ts == 0
  }

  ghost predicate DeltaSays(msg: seq<Member>, d: OrderbookDelta) {
    && TextIs(msg, "market_ticker", d.market) && NumberIs(msg, "price", d.price) && d.price <= 100
    && NumberIs(msg, "delta", d.delta) && SideIs(msg, "side", d.side) && d.ts == 0
    && match d.clientOrderId
       case Some(id) => TextIs(msg, "client_order_id", id)
       case None => forall id :: !TextIs(msg, "client_order_id", id)
  }

  predicate TradeSays(msg: seq<Member>, t: TradeEvent) {
    && TextIs(msg, "market_ticker", t.market)
    && NumberIs(msg, "yes_price", t.yesPrice) && t.yesPrice <= 100
    && NumberIs(msg, "no_price", t.noPrice) && t.noPrice <= 100
    && NumberIs(msg, "count", t.count) && SideIs(msg, "taker_side", t.takerSide)
    && t.ts == match Find(msg, "ts")
               case Some(JInt(n)) =>
                 if -0x8000_0000_0000_0000 <= n < 0x8000_0000_0000_0000 then n * 1_000_000_000 else 0
               case _ => 0
  }

  // ---------------------------------------------------------------- what decodes

  lemma LevelsIff(msg: seq<Member>, key: string, levels: seq<PriceLevel>)
    ensures GetLevels(msg, key) == Ok(levels) <==> LevelsSay(msg, key, levels)
  {
    match Find(msg, key)
    case Some(JArray(entries)) =>
      LevelsExact(entries);
      if LevelsSay(msg, key, levels) {
        assert forall i :: 0 <= i < |entries| ==> EntrySays(entries[i], levels[i]) && GoodEntry(entries[i]);
        assert levels == ParseEntries(entries).value;
      }
    case _ =>
  }

  lemma SideIff(msg: seq<Member>, key: string, side: BookSide)
    ensures GetSide(msg, key) == Ok(side) <==> SideIs(msg, key, side)
  {
  }

  /**
   * A message is decoded to a snapshot if and only if it says that snapshot: type, sequence,
   * market and both sides present, every level in range and kept as it is.
   */
  lemma SnapshotIff(w: Wire, s: OrderbookSnapshot)
    ensures Decode(w) == Ok(OnSnapshot(s)) <==>
            SequenceIs(w, s.sequence) &&
            exists msg :: Carries(w, "orderbook_snapshot", msg) && SnapshotSays(msg, s)
  {
    if w.doc.Some? && GetMessage(w.doc.value).Ok? {
      var msg := GetMessage(w.doc.value).value;
      LevelsIff(msg, "yes", s.yes);
      LevelsIff(msg, "no", s.no);
      if Decode(w) == Ok(OnSnapshot(s)) {
        assert Carries(w, "orderbook_snapshot", msg) && SnapshotSays(msg, s);
      }
    }
  }

  /** The same for a change: every number in its range and kept as it is. */
  lemma DeltaIff(w: Wire, d: OrderbookDelta)
    ensures Decode(w) == Ok(OnDelta(d)) <==>
            SequenceIs(w, d.sequence) &&
            exists msg :: Carries(w, "orderbook_delta", msg) && DeltaSays(msg, d)
  {
    if w.doc.Some? && GetMessage(w.doc.value).Ok? {
      var msg := GetMessage(w.doc.value).value;
      SideIff(msg, "side", d.side);
      DeltaFieldsIff(d.sequence, msg, d);
      if Decode(w) == Ok(OnDelta(d)) {
        assert Carries(w, "orderbook_delta", msg) && DeltaSays(msg, d);
      }
    }
  }

  lemma ClientIdIff(msg: seq<Member>, id: Option<string>)
    ensures GetOptionalString(msg, "client_order_id") == id <==>
            match id
            case Some(text) => TextIs(msg, "client_order_id", text)
            case None => forall text :: !TextIs(msg, "client_order_id", text)
  {
    match Find(msg, "client_order_id")
    case Some(JString(text)) => assert TextIs(msg, "client_order_id", text);
    case _ =>
  }

  lemma DeltaFieldsIff(sequence: UInt64, msg: seq<Member>, d: OrderbookDelta)
    ensures DeltaFields(sequence, msg) == Ok(d) <==> sequence == d.sequence && DeltaSays(msg, d)
  {
    SideIff(msg, "side", d.side);
    ClientIdIff(msg, d.clientOrderId);
  }

  /** And for a trade, which needs no sequence; its time is 0 unless given in whole seconds. */
  lemma TradeIff(w: Wire, t: TradeEvent)
    ensures Decode(w) == Ok(OnTrade(t)) <==>
            exists msg :: Carries(w, "trade", msg) && TradeSays(msg, t)
  {
    if w.doc.Some? && GetMessage(w.doc.value).Ok? {
      var msg := GetMessage(w.doc.value).value;
      TradeFieldsIff(msg, t);
      if Decode(w) == Ok(OnTrade(t)) {
        assert Carries(w, "trade", msg) && TradeSays(msg, t);
      }
    }
  }

  lemma TradeFieldsIff(msg: seq<Member>, t: TradeEvent)
    ensures TradeFields(msg) == Ok(t) <==> TradeSays(msg, t)
  {
    SideIff(msg, "taker_side", t.takerSide);
  }

  /** Nothing decodes to a status update. */
  lemma NoStatus(w: Wire, u: MarketStatusUpdate)
    ensures Decode(w) != Ok(OnStatus(u))
  {
  }

  // ---------------------------------------------------------------- what does not, and why

  /** A member looked for, and whether it will do if it is there. */
  datatype Check = Check(found: Option<Json>, good: bool)

  /** The member is missing, or it is invalid, or what comes next decides. */
  function Then(check: Check, next: Option<ParseError>): Option<ParseError> {
    if check.found.None? then Some(MissingField)
    else if !check.good then Some(InvalidField)
    else next
  }

  function IntegerIn(found: Option<Json>, low: int, high: int): Check {
    Check(found, found.Some? && found.value.JInt? && low <= found.value.number <= high)
  }

  function Integer(found: Option<Json>): Check {
    IntegerIn(found, -0x8000_0000_0000_0000, 0x7FFF_FFFF_FFFF_FFFF)
  }

  function Text(found: Option<Json>): Check { Check(found, found.Some? && found.value.JString?) }

  function Side(found: Option<Json>): Check {
    Check(found, found == Some(JString("yes")) || found == Some(JString("no")))
  }

  predicate Level(entry: Json) {
    && entry.JArray? && |entry.items| >= 2
    && entry.items[0].JInt? && 0 <= entry.items[0].number <= 100
    && entry.items[1].JInt? && 0 <= entry.items[1].number <= 0xFFFF_FFFF
  }

  function Levels(found: Option<Json>): Check {
    Check(found, found.Some? && found.value.JArray? &&
                 forall i :: 0 <= i < |found.value.items| ==> Level(found.value.items[i]))
  }

  function SnapshotFault(msg: seq<Member>): Option<ParseError> {
    Then(Text(Find(msg, "market_ticker")), Then(Levels(Find(msg, "yes")), Then(Levels(Find(msg, "no")), None)))
  }

  /** A number is looked up as any 64-bit integer first; its range is checked behind the side. */
  function DeltaFault(msg: seq<Member>): Option<ParseError> {
    var price, delta := Find(msg, "price"), Find(msg, "delta");
    Then(Text(Find(msg, "market_ticker")), Then(Integer(price), Then(Integer(delta),
         Then(Side(Find(msg, "side")),
              Then(IntegerIn(price, 0, 100), Then(IntegerIn(delta, -0x8000_0000, 0x7FFF_FFFF), None))))))
  }

  function TradeFault(msg: seq<Member>): Option<ParseError> {
    var yes, no, count := Find(msg, "yes_price"), Find(msg, "no_price"), Find(msg, "count");
    Then(Text(Find(msg, "market_ticker")), Then(Integer(yes), Then(Integer(no), Then(Integer(count),
         Then(Side(Find(msg, "taker_side")),
              Then(IntegerIn(yes, 0, 100),
                   Then(IntegerIn(no, 0, 100), Then(IntegerIn(count, 0, 0xFFFF_FFFF), None))))))))
  }

  function SequenceThen(doc: Json, next: Option<ParseError>): Option<ParseError> {
    Then(IntegerIn(Field(doc, "seq"), 0, 0xFFFF_FFFF_FFFF_FFFF), next)
  }

  /** Anything but an object under msg counts as missing. */
  function MessageThen(doc: Json, fault: seq<Member> -> Option<ParseError>): Option<ParseError> {
    match Field(doc, "msg")
    case Some(JObject(msg)) => fault(msg)
    case _ => Some(MissingField)
  }

  /** The text decides first, then the type, then the members in order. */
  function Fault(w: Wire): Option<ParseError> {
    if w.text == "" then Some(EmptyMessage)
    else if w.doc.None? then Some(InvalidJson)
    else
      match Field(w.doc.value, "type")
      case Some(JString(kind)) =>
        if kind == "orderbook_snapshot" then SequenceThen(w.doc.value, MessageThen(w.doc.value, SnapshotFault))
        else if kind == "orderbook_delta" then SequenceThen(w.doc.value, MessageThen(w.doc.value, DeltaFault))
        else if kind == "trade" then MessageThen(w.doc.value, TradeFault)
        else Some(UnsupportedType)
      case _ => Some(MissingType)
  }

  lemma LevelsFault(msg: seq<Member>, key: string)
    ensures var r := GetLevels(msg, key);
            match Then(Levels(Find(msg, key)), None)
            case None => r.Ok?
            case Some(error) => r == Err(error)
  {
    match Find(msg, key)
    case Some(JArray(entries)) => LevelsExact(entries);
    case _ =>
  }

  predicate FailsWith<T>(r: Result<T, ParseError>, fault: Option<ParseError>) {
    match fault
    case None => r.Ok?
    case Some(error) => r.Err? && r.error == error
  }

  lemma SnapshotFails(w: Wire)
    requires w.doc.Some?
    ensures FailsWith(ParseSnapshot(w), SequenceThen(w.doc.value, MessageThen(w.doc.value, SnapshotFault)))
  {
    if GetMessage(w.doc.value).Ok? {
      LevelsFault(GetMessage(w.doc.value).value, "yes");
      LevelsFault(GetMessage(w.doc.value).value, "no");
    }
  }

  lemma DeltaFails(sequence: UInt64, msg: seq<Member>)
    ensures FailsWith(DeltaFields(sequence, msg), DeltaFault(msg))
  {
  }

  lemma TradeFails(msg: seq<Member>)
    ensures FailsWith(TradeFields(msg), TradeFault(msg))
  {
  }

  lemma DeltaMessageFails(w: Wire)
    requires w.doc.Some?
    ensures FailsWith(ParseDelta(w), SequenceThen(w.doc.value, MessageThen(w.doc.value, DeltaFault)))
  {
    if GetSequence(w.doc.value).Ok? && GetMessage(w.doc.value).Ok? {
      DeltaFails(GetSequence(w.doc.value).value, GetMessage(w.doc.value).value);
    }
  }

  lemma TradeMessageFails(w: Wire)
    requires w.doc.Some?
    ensures FailsWith(ParseTrade(w), MessageThen(w.doc.value, TradeFault))
  {
    if GetMessage(w.doc.value).Ok? {
      TradeFails(GetMessage(w.doc.value).value);
    }
  }

  /** A message is refused exactly with the error of its first fault, and decoded if it has none. */
  lemma DecodeFails(w: Wire)
    ensures FailsWith(Decode(w), Fault(w))
  {
    if w.doc.Some? {
      SnapshotFails(w);
      DeltaMessageFails(w);
      TradeMessageFails(w);
    }
  }
}
