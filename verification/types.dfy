/** Values shared by every component of the trading kernel (include/types.h, include/fill_logger.h). */
module Types {

  // The ranges of the machine types.
  const INT64_MIN: int := -0x8000_0000_0000_0000
  const INT64_MAX: int := 0x7FFF_FFFF_FFFF_FFFF
  const UINT32_MAX: int := 0xFFFF_FFFF
  const INT32_MIN: int := -0x8000_0000
  const INT32_MAX: int := 0x7FFF_FFFF
  const SIZE_MAX: nat := 0xFFFF_FFFF_FFFF_FFFF

  /** Prices are integers in ten-thousandths. */
  const PRICE_SCALE: int := 10000

  datatype Side = Buy | Sell

  /** The signed unit a side adds to the position. */
  function Sign(side: Side): (s: int)
    ensures s == 1 || s == -1
    ensures side == Buy <==> s == 1
  {
    if side == Buy then 1 else -1
  }

  datatype Style = Aggressive | Passive

  datatype MarketTick = MarketTick(
    exchangeTs: int, receiveTs: int, bidPrice: int, askPrice: int,
    symbolId: int, bidQty: int, askQty: int)

  datatype Fill = Fill(ts: int, price: int, quantity: int, side: Side)

  /** The value-initialised `Fill{}`. */
  const NO_FILL := Fill(0, 0, 0, Buy)

  datatype OrderRequest = OrderRequest(side: Side, quantity: int, limitPrice: int)

  datatype StrategyDecision = StrategyDecision(hasOrder: bool, order: OrderRequest)

  datatype RejectReason = None | MaxPosition | NewRejectedByVenue | CancelRejectedByVenue | InvalidQuantity

  datatype EventKind = FillRecord | RiskReject | OmsTransition | VenueReject

  /** One journal record. A transition stores the two state codes in `price` and `quantity`. */
  datatype TradeEvent = TradeEvent(
    ts: int, price: int, quantity: int, kind: EventKind, side: Side, reason: RejectReason)

  function Abs(x: int): (r: int)
    ensures r >= 0 && (r == x || r == -x)
  {
    if x >= 0 then x else -x
  }

  function Min(a: int, b: int): (r: int)
    ensures r <= a && r <= b && (r == a || r == b)
  {
    if a < b then a else b
  }

  function Max(a: int, b: int): (r: int)
    ensures r >= a && r >= b && (r == a || r == b)
  {
    if a > b then a else b
  }

  /** C++ integer division: the quotient is truncated toward zero. */
  function TruncDiv(a: int, b: int): (q: int)
    requires b > 0
    ensures Abs(q) == Abs(a) / b
    ensures a >= 0 ==> q >= 0
    ensures a <= 0 ==> q <= 0
  {
    if a >= 0 then a / b else -((-a) / b)
  }

  /** C++ remainder: it takes the sign of the dividend. */
  function TruncMod(a: int, b: int): (r: int)
    requires b > 0
    ensures a == TruncDiv(a, b) * b + r
    ensures Abs(r) < b
  {
    a - TruncDiv(a, b) * b
  }

  /** The mid price both the loop and the fill handler mark to. */
  function Mid(tick: MarketTick): (m: int)
    ensures 0 <= tick.bidPrice <= tick.askPrice ==> tick.bidPrice <= m <= tick.askPrice
    ensures tick.bidPrice + tick.askPrice >= 0 ==> 0 <= tick.bidPrice + tick.askPrice - 2 * m <= 1
    ensures tick.bidPrice + tick.askPrice <= 0 ==> -1 <= tick.bidPrice + tick.askPrice - 2 * m <= 0
  {
    TruncDiv(tick.bidPrice + tick.askPrice, 2)
  }
}
