/** The exchange as the reconciliation engine sees it during one tick: what it answers about an
    order, the recent trades, and how it answers open and cancel requests. The answers are fixed
    for the tick; the response rules of the spot client are built into the request functions. */
module Gateway {
  import opened Types

  /** The venue's view of an existing order. */
  datatype Snapshot = Snapshot(status: Status, updateTime: int)

  /** One entry of the venue's trade list. */
  datatype Trade = Trade(refId: string, commission: real)

  /** The first fill of a market order. */
  datatype Fill = Fill(price: real, qty: real, commission: real)

  /** The venue's acknowledgement of a new order. */
  datatype Ack = Ack(refId: string, status: Status, openTime: int, fill: Option<Fill>)

  /** The best ask and bid prices, best first. */
  datatype Book = Book(asks: seq<real>, bids: seq<real>)

  datatype Exchange = Exchange(
    /** GetOrder: the venue's snapshot of an order, by the order's client id. */
    orders: map<string, Snapshot>,
    /** GetTradeList: the most recent trades. */
    tradeList: seq<Trade>,
    /** The trades GetCommission searches. */
    commissionTrades: seq<Trade>,
    /** Client ids of the orders the venue reports CANCELED when asked to cancel them. */
    cancelable: set<string>,
    /** The venue's answer to a new order, or nothing when the request fails. */
    answer: Order -> Option<Ack>,
    /** The order types the product's client sends as stop orders (SpotStopTypes for spot). */
    stopTypes: set<OrderType>,
    /** GetOrderBook. */
    book: Option<Book>)

  /** GetOrder: the snapshot, or nothing when the lookup fails. */
  function GetOrder(ex: Exchange, o: Order): (r: Option<Snapshot>)
    ensures r.Some? <==> o.id in ex.orders
    ensures r.Some? ==> r.value == ex.orders[o.id]
  {
    if o.id in ex.orders then Some(ex.orders[o.id]) else None
  }

  /** CancelOrder: succeeds only when the venue reports CANCELED; the answer is then stamped with
      the current time. */
  function CancelOrder(ex: Exchange, o: Order, now: int): (r: Option<Snapshot>)
    ensures r.Some? <==> o.id in ex.cancelable
    ensures r.Some? ==> r.value == Snapshot(Canceled, now)
  {
    if o.id in ex.cancelable then Some(Snapshot(Canceled, now)) else None
  }

  /** GetCommission: the commission of the first searched trade with that venue id. */
  function GetCommission(ex: Exchange, refId: string): (r: Option<real>)
    ensures r.None? <==> forall i :: 0 <= i < |ex.commissionTrades| ==> ex.commissionTrades[i].refId != refId
    ensures r.Some? ==> exists i :: 0 <= i < |ex.commissionTrades| && ex.commissionTrades[i].refId == refId
                          && ex.commissionTrades[i].commission == r.value
                          && forall j :: 0 <= j < i ==> ex.commissionTrades[j].refId != refId
  {
    FirstCommission(ex.commissionTrades, refId)
  }

  function FirstCommission(trades: seq<Trade>, refId: string): (r: Option<real>)
    ensures r.None? <==> forall i :: 0 <= i < |trades| ==> trades[i].refId != refId
    ensures r.Some? ==> exists i :: 0 <= i < |trades| && trades[i].refId == refId
                          && trades[i].commission == r.value
                          && forall j :: 0 <= j < i ==> trades[j].refId != refId
  {
    if |trades| == 0 then None
    else if trades[0].refId == refId then Some(trades[0].commission)
    else
      var r := FirstCommission(trades[1..], refId);
      if r.Some? then
        var i :| 0 <= i < |trades[1..]| && trades[1..][i].refId == refId && trades[1..][i].commission == r.value
                 && forall j :: 0 <= j < i ==> trades[1..][j].refId != refId;
        assert trades[i + 1] == trades[1..][i];
        assert forall j :: 1 <= j < i + 1 ==> trades[j] == trades[1..][j - 1];
        r
      else
        assert forall i :: 1 <= i < |trades| ==> trades[i] == trades[1..][i - 1];
        r
  }

  /** The venue acknowledges `o` with one of the given statuses. */
  predicate AcceptedAs(ex: Exchange, o: Order, statuses: set<Status>) {
    ex.answer(o).Some? && ex.answer(o).value.status in statuses
  }

  /** OpenLimitOrder: only LIMIT orders are sent, and only a NEW or FILLED answer is accepted. */
  function OpenLimitOrder(ex: Exchange, o: Order): (r: Option<Ack>)
    ensures r.Some? ==> o.orderType == Limit && (r.value.status == New || r.value.status == Filled)
    ensures r.Some? ==> ex.answer(o) == r
    ensures o.orderType == Limit && AcceptedAs(ex, o, {New, Filled}) ==> r.Some?
  {
    if o.orderType != Limit then None
    else
      match ex.answer(o)
      case None => None
      case Some(a) => if a.status == New || a.status == Filled then Some(a) else None
  }

  /** The stop order types the spot client sends: STOP_LOSS_LIMIT and TAKE_PROFIT_LIMIT. */
  const SpotStopTypes: set<OrderType> := {SL, TP}

  /** OpenStopOrder: only orders of the client's stop types are sent. */
  function OpenStopOrder(ex: Exchange, o: Order): (r: Option<Ack>)
    ensures r.Some? ==> o.orderType in ex.stopTypes && ex.answer(o) == r
    ensures o.orderType in ex.stopTypes ==> r == ex.answer(o)
  {
    if o.orderType !in ex.stopTypes then None else ex.answer(o)
  }

  /** The spot client refuses every order that is not a STOP_LOSS_LIMIT or TAKE_PROFIT_LIMIT, and
      sends both. */
  lemma SpotStopOrder(ex: Exchange, o: Order)
    requires ex.stopTypes == SpotStopTypes
    ensures OpenStopOrder(ex, o).Some? ==> o.orderType == SL || o.orderType == TP
    ensures o.orderType == SL || o.orderType == TP ==> OpenStopOrder(ex, o) == ex.answer(o)
  {
  }

  /** OpenMarketOrder: only MARKET orders are sent. */
  function OpenMarketOrder(ex: Exchange, o: Order): (r: Option<Ack>)
    ensures r.Some? ==> o.orderType == Market && ex.answer(o) == r
    ensures o.orderType == Market ==> r == ex.answer(o)
  {
    if o.orderType != Market then None else ex.answer(o)
  }
}
