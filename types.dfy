/** Value types shared by the order store, the strategies and the reconciliation engine. */
module Types {

  datatype Option<+T> = None | Some(value: T)

  /** Order side; `NoSide` stands for the empty side string of a query order. */
  datatype Side = Buy | Sell | NoSide

  /** Position side of a futures order; `NoPos` is the empty string used for spot orders. */
  datatype PosSide = NoPos | Long | Short

  /** Order type: LIMIT, MARKET, STOP_LOSS_LIMIT, TAKE_PROFIT_LIMIT, the futures STOP/TAKE_PROFIT
      variants, and `Untyped` for the empty type of an intent that never set one. */
  datatype OrderType = Limit | Market | SL | TP | FSL | FTP | Untyped

  /** Order status. `NoStatus` is the empty string; `PartiallyFilled` stands for any other
      status the venue can report; `LimitStatus` is the label the grid strategy puts on its intents. */
  datatype Status = NoStatus | New | PartiallyFilled | Filled | Canceled | Expired | Rejected | LimitStatus

  datatype Product = Spot | Futures

  /** The central record, one row of the order table. */
  datatype Order = Order(
    id: string,
    refId: string,
    botId: int,
    exchange: string,
    symbol: string,
    side: Side,
    posSide: PosSide,
    orderType: OrderType,
    status: Status,
    qty: real,
    openPrice: real,
    stopPrice: real,
    zonePrice: real,
    tpPrice: real,
    closePrice: real,
    commission: real,
    pl: real,
    openTime: int,
    updateTime: int,
    closeTime: int,
    openOrderId: string,
    closeOrderId: string,
    sl: real,
    tp: real)

  /** The zero value of an order record (every field empty or zero). */
  const ZeroOrder: Order :=
    Order("", "", 0, "", "", NoSide, NoPos, Untyped, NoStatus,
          0.0, 0.0, 0.0, 0.0, 0.0, 0.0, 0.0, 0.0,
          0, 0, 0, "", "", 0.0, 0.0)

  datatype Ticker = Ticker(exchange: string, symbol: string, price: real)

  /** One historical bar; bars are ordered oldest to newest. */
  datatype Bar = Bar(open: real, high: real, low: real, close: real, time: int)

  /** The bot's view: which sides it may open. */
  const ViewLong: string := "LONG"
  const ViewShort: string := "SHORT"
  const ViewNeutral: string := "NEUTRAL"

  /** A strategy's output for one tick. */
  datatype TradeOrders = TradeOrders(openOrders: seq<Order>, closeOrders: seq<Order>, cancelOrders: seq<Order>)

  /** The statuses that end an order without a fill. */
  predicate IsCanceledLike(s: Status) {
    s == Canceled || s == Expired || s == Rejected
  }

  /** An order is active while its close time is unset. */
  predicate IsOpen(o: Order) {
    o.closeTime == 0
  }
}
