/**
 * Decoding of websocket messages. The JSON library is abstracted to "a tree or an error";
 * everything from the tree on follows the source branch by branch.
 */
module EventParser {
  import opened Prelude
  import opened JsonTree
  import opened MarketEvents

  datatype ParseError = EmptyMessage | InvalidJson | MissingType | MissingField | InvalidField | UnsupportedType

  /** A message as received: its text and what the JSON library makes of it. */
  datatype Wire = Wire(text: string, doc: Option<Json>)

  // ---------------------------------------------------------------- narrowing casts

  function ToPrice(x: int): Price { x % 0x1_0000 }

  function ToSize(x: int): Size { x % 0x1_0000_0000 }

  function ToSizeChange(x: int): SizeChange { (x + 0x8000_0000) % 0x1_0000_0000 - 0x8000_0000 }

  // ---------------------------------------------------------------- field access

  function GetString(obj: seq<Member>, key: string): Result<string, ParseError> {
    match Find(obj, key)
    case None => Err(MissingField)
    case Some(JString(text)) => Ok(text)
    case Some(_) => Err(InvalidField)
  }

  /** get_int64 on a value. */
  function AsInt64(value: Json): Option<Int64> {
    if value.JInt? && IsInt64(value.number) then Some(value.number) else None
  }

  function GetInt(obj: seq<Member>, key: string): Result<Int64, ParseError> {
    match Find(obj, key)
    case None => Err(MissingField)
    case Some(value) => if AsInt64(value).Some? then Ok(AsInt64(value).value) else Err(InvalidField)
  }

  function GetOptionalString(obj: seq<Member>, key: string): Option<string> {
    match Find(obj, key)
    case Some(JString(text)) => Some(text)
    case _ => None
  }

  function ParseSide(side: string): Result<BookSide, ParseError> {
    if side == "yes" then Ok(Yes) else if side == "no" then Ok(No) else Err(InvalidField)
  }

  function GetSide(obj: seq<Member>, key: string): Result<BookSide, ParseError> {
    var side := GetString(obj, key);
    if side.Err? then Err(side.error) else ParseSide(side.value)
  }

  // ---------------------------------------------------------------- price levels

  /** An array that begins with a price in range and a size in range. */
  predicate GoodEntry(entry: Json) {
    && entry.JArray? && |entry.items| >= 2
    && entry.items[0].JInt? && 0 <= entry.items[0].number <= PRICE_MAX
    && entry.items[1].JInt? && 0 <= entry.items[1].number < 0x1_0000_0000
  }

  /** One turn of the loop in parse_levels. */
  function ParseEntry(entry: Json): Option<PriceLevel> {
    if !entry.JArray? || |entry.items| == 0 then None
    else
      var price := AsInt64(entry.items[0]);
      if |entry.items| == 1 then None
      else
        var size := AsInt64(entry.items[1]);
        if price.None? || size.None? then None
        else if price.value < 0 || price.value > PRICE_MAX then None
        else if size.value < 0 || size.value > 0xFFFF_FFFF then None
        else Some(PriceLevel(ToPrice(price.value), ToSize(size.value)))
  }

  function ParseEntries(entries: seq<Json>): Result<seq<PriceLevel>, ParseError> {
    if entries == [] then Ok([])
    else
      var first := ParseEntry(entries[0]);
      if first.None? then Err(InvalidField)
      else
        var others := ParseEntries(entries[1..]);
        if others.Err? then others else Ok([first.value] + others.value)
  }

  function GetLevels(obj: seq<Member>, key: string): Result<seq<PriceLevel>, ParseError> {
    match Find(obj, key)
    case None => Err(MissingField)
    case Some(JArray(entries)) => ParseEntries(entries)
    case Some(_) => Err(InvalidField)
  }

  lemma EntryExact(entry: Json)
    ensures ParseEntry(entry).Some? <==> GoodEntry(entry)
    ensures GoodEntry(entry) ==>
              ParseEntry(entry).value.price == entry.items[0].number &&
              ParseEntry(entry).value.size == entry.items[1].number
  {
  }

  /** All or nothing, nothing lost in narrowing, order and length kept. */
  lemma {:induction false} LevelsExact(entries: seq<Json>)
    ensures ParseEntries(entries).Ok? <==> forall i :: 0 <= i < |entries| ==> GoodEntry(entries[i])
    ensures ParseEntries(entries).Err? ==> ParseEntries(entries).error == InvalidField
    ensures ParseEntries(entries).Ok? ==>
              var levels := ParseEntries(entries).value;
              |levels| == |entries| &&
              forall i :: 0 <= i < |entries| ==>
                GoodEntry(entries[i]) &&
                levels[i].price == entries[i].items[0].number && levels[i].size == entries[i].items[1].number
  {
    if entries != [] {
      EntryExact(entries[0]);
      LevelsExact(entries[1..]);
      assert forall i :: 1 <= i < |entries| ==> entries[i] == entries[1..][i - 1];
      if ParseEntries(entries).Ok? {
        var levels := ParseEntries(entries).value;
        assert forall i :: 1 <= i < |entries| ==> levels[i] == ParseEntries(entries[1..]).value[i - 1];
      }
    }
  }

  /** parse_levels as the loop it is. */
  method ParseLevels(obj: seq<Member>, key: string) returns (r: Result<seq<PriceLevel>, ParseError>)
    ensures r == GetLevels(obj, key)
    ensures Find(obj, key).None? ==> r == Err(MissingField)
    ensures Find(obj, key).Some? && !Find(obj, key).value.JArray? ==> r == Err(InvalidField)
  {
    var field := Find(obj, key);
    if field.None? {
      return Err(MissingField);
    }
    if !field.value.JArray? {
      return Err(InvalidField);
    }
    var entries := field.value.items;
    var levels: seq<PriceLevel> := [];
    LevelsExact(entries);
    for i := 0 to |entries|
      invariant |levels| == i
      invariant forall j :: 0 <= j < i ==> GoodEntry(entries[j]) && ParseEntry(entries[j]) == Some(levels[j])
    {
      var entry := entries[i];
      EntryExact(entry);
      if !entry.JArray? || |entry.items| == 0 {
        return Err(InvalidField);
      }
      var price := AsInt64(entry.items[0]);
      if |entry.items| == 1 {
        return Err(InvalidField);
      }
      var size := AsInt64(entry.items[1]);
      if price.None? || size.None? {
        return Err(InvalidField);
      }
      if price.value < 0 || price.value > PRICE_MAX {
        return Err(InvalidField);
      }
      if size.value < 0 || size.value > 0xFFFF_FFFF {
        return Err(InvalidField);
      }
      levels := levels + [PriceLevel(ToPrice(price.value), ToSize(size.value))];
    }
    r := Ok(levels);
    forall i | 0 <= i < |entries|
      ensures levels[i] == ParseEntries(entries).value[i]
    {
      EntryExact(entries[i]);
    }
    assert levels == ParseEntries(entries).value;
  }

  // ---------------------------------------------------------------- whole messages

  function GetSequence(doc: Json): Result<UInt64, ParseError> {
    match Field(doc, "seq")
    case None => Err(MissingField)
    case Some(value) => if value.JInt? && IsUInt64(value.number) then Ok(value.number) else Err(InvalidField)
  }

  function GetMessage(doc: Json): Result<seq<Member>, ParseError> {
    match Field(doc, "msg")
    case Some(JObject(members)) => Ok(members)
    case _ => Err(MissingField)
  }

  /** Whole seconds turned to nanoseconds; 0 when absent or no integer. */
  function OptionalTimestamp(obj: seq<Member>): int {
    var seconds := GetInt(obj, "ts");
    if seconds.Ok? then seconds.value * NANOS_PER_SECOND else 0
  }

  function ParseSnapshot(w: Wire): Result<OrderbookSnapshot, ParseError> {
    if w.doc.None? then Err(InvalidJson)
    else
      var sequence := GetSequence(w.doc.value);
      if sequence.Err? then Err(sequence.error)
      else
        var msg := GetMessage(w.doc.value);
        if msg.Err? then Err(msg.error)
        else
          var market := GetString(msg.value, "market_ticker");
          if market.Err? then Err(market.error)
          else
            var yes := GetLevels(msg.value, "yes");
            if yes.Err? then Err(yes.error)
            else
              var no := GetLevels(msg.value, "no");
              if no.Err? then Err(no.error)
              else Ok(OrderbookSnapshot(market.value, sequence.value, yes.value, no.value, 0))
  }

  function ParseDelta(w: Wire): Result<OrderbookDelta, ParseError> {
    if w.doc.None? then Err(InvalidJson)
    else
      var sequence := GetSequence(w.doc.value);
      if sequence.Err? then Err(sequence.error)
      else
        var msg := GetMessage(w.doc.value);
        if msg.Err? then Err(msg.error) else DeltaFields(sequence.value, msg.value)
  }

  function DeltaFields(sequence: UInt64, obj: seq<Member>): Result<OrderbookDelta, ParseError> {
    var market := GetString(obj, "market_ticker");
    if market.Err? then Err(market.error)
    else
      var price := GetInt(obj, "price");
      if price.Err? then Err(price.error)
      else
        var delta := GetInt(obj, "delta");
        if delta.Err? then Err(delta.error)
        else
          var side := GetSide(obj, "side");
          if side.Err? then Err(side.error)
          else if price.value < 0 || price.value > PRICE_MAX then Err(InvalidField)
          else if delta.value < -0x8000_0000 || delta.value > 0x7FFF_FFFF then Err(InvalidField)
          else Ok(OrderbookDelta(market.value, sequence, ToPrice(price.value), ToSizeChange(delta.value),
                                 side.value, GetOptionalString(obj, "client_order_id"), 0))
  }

  function ParseTrade(w: Wire): Result<TradeEvent, ParseError> {
    if w.doc.None? then Err(InvalidJson)
    else
      var msg := GetMessage(w.doc.value);
      if msg.Err? then Err(msg.error) else TradeFields(msg.value)
  }

  function TradeFields(obj: seq<Member>): Result<TradeEvent, ParseError> {
    var market := GetString(obj, "market_ticker");
    if market.Err? then Err(market.error)
    else
      var yesPrice := GetInt(obj, "yes_price");
      if yesPrice.Err? then Err(yesPrice.error)
      else
        var noPrice := GetInt(obj, "no_price");
        if noPrice.Err? then Err(noPrice.error)
        else
          var count := GetInt(obj, "count");
          if count.Err? then Err(count.error)
          else
            var side := GetSide(obj, "taker_side");
            if side.Err? then Err(side.error)
            else if yesPrice.value < 0 || yesPrice.value > PRICE_MAX ||
                    noPrice.value < 0 || noPrice.value > PRICE_MAX then Err(InvalidField)
            else if count.value < 0 || count.value > 0xFFFF_FFFF then Err(InvalidField)
            else Ok(TradeEvent(market.value, ToPrice(yesPrice.value), ToPrice(noPrice.value),
                               ToSize(count.value), side.value, OptionalTimestamp(obj)))
  }

  function ParseMessageType(w: Wire): Result<string, ParseError> {
    if w.text == "" then Err(EmptyMessage)
    else if w.doc.None? then Err(InvalidJson)
    else
      match Field(w.doc.value, "type")
      case Some(JString(text)) => Ok(text)
      case _ => Err(MissingType)
  }

  /** The one sink call a message leads to, or the error. */
  function Decode(w: Wire): Result<SinkCall, ParseError> {
    var kind := ParseMessageType(w);
    if kind.Err? then Err(kind.error)
    else if kind.value == ORDERBOOK_SNAPSHOT then
      var r := ParseSnapshot(w);
      if r.Ok? then Ok(OnSnapshot(r.value)) else Err(r.error)
    else if kind.value == ORDERBOOK_DELTA then
      var r := ParseDelta(w);
      if r.Ok? then Ok(OnDelta(r.value)) else Err(r.error)
    else if kind.value == TRADE then
      var r := ParseTrade(w);
      if r.Ok? then Ok(OnTrade(r.value)) else Err(r.error)
    else Err(UnsupportedType)
  }

  /** The calls one message causes: one if it decodes, none otherwise. */
  function CallsOf(w: Wire): seq<SinkCall> { if Decode(w).Ok? then [Decode(w).value] else [] }
}
