/** Exchange events and the calls a market sink receives. */
module MarketEvents {
  import opened Prelude

  type Price = x: int | 0 <= x < 0x1_0000
  type Size = x: int | 0 <= x < 0x1_0000_0000
  type SizeChange = x: int | -0x8000_0000 <= x < 0x8000_0000

  const PRICE_MAX: Price := 100
  const NANOS_PER_SECOND: int := 1_000_000_000

  // message types; the second is a channel name too
  const ORDERBOOK_SNAPSHOT := "orderbook_snapshot"
  const ORDERBOOK_DELTA := "orderbook_delta"
  const TRADE := "trade"

  datatype BookSide = Yes | No

  datatype MarketStatus = Unopened | Open | Paused | Closed | Settled

  datatype PriceLevel = PriceLevel(price: Price, size: Size)

  datatype OrderbookSnapshot = OrderbookSnapshot(
    market: string, sequence: UInt64, yes: seq<PriceLevel>, no: seq<PriceLevel>, ts: int)

  datatype OrderbookDelta = OrderbookDelta(
    market: string, sequence: UInt64, price: Price, delta: SizeChange, side: BookSide,
    clientOrderId: Option<string>, ts: int)

  datatype TradeEvent = TradeEvent(
    market: string, yesPrice: Price, noPrice: Price, count: Size, takerSide: BookSide, ts: int)

  datatype MarketStatusUpdate = MarketStatusUpdate(market: string, status: MarketStatus, ts: int)

  /** One call on a sink, with its argument. */
  datatype SinkCall =
    | OnSnapshot(snapshot: OrderbookSnapshot)
    | OnDelta(delta: OrderbookDelta)
    | OnTrade(trade: TradeEvent)
    | OnStatus(status: MarketStatusUpdate)
}
