/** The grid strategy's tick (strategy/grid): the zone around the price gives a BUY intent at its
    lower bound and a SELL intent at its upper bound, each gated by the bot's view, with stop-loss
    and take-profit prices a multiple of the grid width away. */
module GridStrategy {
  import opened Types
  import opened GridRange

  /** The bot parameters the grid strategy reads. */
  datatype GridParams = GridParams(
    botId: int,
    lowerPrice: real,
    upperPrice: real,
    grids: real,
    qty: real,
    view: string,
    slippage: real,
    /** Stop-loss and take-profit distances, in grid widths; 0 or less means none. */
    sl: real,
    tp: real)

  /** strings.ToUpper on ASCII letters. */
  function UpperChar(c: char): (u: char)
    ensures 'a' <= c <= 'z' ==> u as int == c as int - 32
    ensures !('a' <= c <= 'z') ==> u == c
    ensures !('a' <= u <= 'z')
  {
    if 'a' <= c <= 'z' then (c as int - 32) as char else c
  }

  function ToUpper(s: string): (r: string)
    ensures |r| == |s|
    ensures forall i :: 0 <= i < |s| ==> r[i] == UpperChar(s[i])
  {
    if |s| == 0 then "" else [UpperChar(s[0])] + ToUpper(s[1..])
  }

  /** Upper-casing twice is upper-casing once. */
  lemma ToUpperIdempotent(s: string)
    ensures ToUpper(ToUpper(s)) == ToUpper(s)
  {
    var u := ToUpper(s);
    assert forall i :: 0 <= i < |u| ==> ToUpper(u)[i] == u[i];
  }

  /** The view allows long positions: LONG or NEUTRAL, or their initials, in any case. */
  predicate AllowsLong(view: string) {
    var v := ToUpper(view);
    v == ViewLong || v == "L" || v == ViewNeutral || v == "N"
  }

  /** The view allows short positions: SHORT or NEUTRAL, or their initials, in any case. */
  predicate AllowsShort(view: string) {
    var v := ToUpper(view);
    v == ViewShort || v == "S" || v == ViewNeutral || v == "N"
  }

  /** View matching ignores case: a view and its upper-cased form allow the same sides. */
  lemma ViewIgnoresCase(view: string)
    ensures AllowsLong(view) == AllowsLong(ToUpper(view))
    ensures AllowsShort(view) == AllowsShort(ToUpper(view))
  {
    ToUpperIdempotent(view);
  }

  /** "n" is read as neutral (both sides), "l" as long only, "short" as short only. */
  lemma ViewAbbreviations()
    ensures AllowsLong("n") && AllowsShort("n")
    ensures AllowsLong("l") && !AllowsShort("l")
    ensures !AllowsLong("short") && AllowsShort("short")
  {
    assert ToUpper("n") == "N";
    assert ToUpper("l") == "L";
    assert ToUpper("short") == "SHORT";
  }

  function ZoneOf(ticker: Ticker, p: GridParams): Zone
    requires p.lowerPrice < p.upperPrice && p.grids > 0.0
  {
    GetGridRange(ticker.price, p.lowerPrice, p.upperPrice, p.grids)
  }

  /** The fields every intent of the tick shares. */
  predicate CommonFields(ticker: Ticker, p: GridParams, o: Order) {
    o.botId == p.botId && o.exchange == ticker.exchange && o.symbol == ticker.symbol
      && o.qty == p.qty && o.status == LimitStatus && o.orderType == Untyped
  }

  /** The BUY intent: at the zone's lower bound; its stops are set, each when its multiplier is
      positive, only when no active BUY order is near that price. */
  predicate BuyIntent(z: Zone, p: GridParams, active: bool, o: Order) {
    o.side == Buy && o.openPrice == z.lower
      && o.sl == (if !active && p.sl > 0.0 then z.lower - z.width * p.sl else 0.0)
      && o.tp == (if !active && p.tp > 0.0 then z.lower + z.width * p.tp else 0.0)
  }

  /** The SELL intent: at the zone's upper bound, with the stops mirrored. */
  predicate SellIntent(z: Zone, p: GridParams, o: Order) {
    o.side == Sell && o.openPrice == z.upper
      && o.sl == (if p.sl > 0.0 then z.upper + z.width * p.sl else 0.0)
      && o.tp == (if p.tp > 0.0 then z.upper - z.width * p.tp else 0.0)
  }

  /** The BUY leg: the shared order moved to the zone's lower bound, with its stops set when no
      active BUY order is near that price. */
  method BuyLeg(ticker: Ticker, p: GridParams, z: Zone, active: bool, order0: Order) returns (order: Order)
    requires CommonFields(ticker, p, order0) && order0.sl == 0.0 && order0.tp == 0.0
    ensures CommonFields(ticker, p, order) && BuyIntent(z, p, active, order)
    ensures order.sl == 0.0 <== p.sl <= 0.0
    ensures order.tp == 0.0 <== p.tp <= 0.0
  {
    order := order0.(openPrice := z.lower, side := Buy);
    if !active {
      if p.sl > 0.0 {
        order := order.(sl := z.lower - z.width * p.sl);
      }
      if p.tp > 0.0 {
        order := order.(tp := z.lower + z.width * p.tp);
      }
    }
  }

  /** The SELL leg: the shared order moved to the zone's upper bound with mirrored stops; a stop
      whose multiplier is not positive keeps the value the BUY leg left, which is zero. */
  method SellLeg(ticker: Ticker, p: GridParams, z: Zone, order0: Order) returns (order: Order)
    requires CommonFields(ticker, p, order0)
    requires p.sl <= 0.0 ==> order0.sl == 0.0
    requires p.tp <= 0.0 ==> order0.tp == 0.0
    ensures CommonFields(ticker, p, order) && SellIntent(z, p, order)
  {
    order := order0.(openPrice := z.upper, side := Sell);
    if p.sl > 0.0 {
      order := order.(sl := z.upper + z.width * p.sl);
    }
    if p.tp > 0.0 {
      order := order.(tp := z.upper - z.width * p.tp);
    }
  }

  /** OnTick. `hasActive(side, price)` answers whether the order database holds an active order of
      that side near that price (within the slippage). The BUY intent is emitted whenever the view
      allows long; the SELL intent only when, in addition, no active SELL order is near its price. */
  method OnTick(ticker: Ticker, p: GridParams, hasActive: (Side, real) -> bool) returns (r: TradeOrders)
    requires p.lowerPrice < p.upperPrice && p.grids > 0.0
    ensures r.closeOrders == [] && r.cancelOrders == []
    ensures var sell := AllowsShort(p.view) && !hasActive(Sell, ZoneOf(ticker, p).upper);
            |r.openOrders| == (if AllowsLong(p.view) then 1 else 0) + (if sell then 1 else 0)
    ensures AllowsLong(p.view) ==>
              BuyIntent(ZoneOf(ticker, p), p, hasActive(Buy, ZoneOf(ticker, p).lower), r.openOrders[0])
    ensures AllowsShort(p.view) && !hasActive(Sell, ZoneOf(ticker, p).upper) ==>
              SellIntent(ZoneOf(ticker, p), p, r.openOrders[|r.openOrders| - 1])
    ensures forall o :: o in r.openOrders ==> CommonFields(ticker, p, o)
    ensures forall o :: o in r.openOrders ==> (o.side == Buy && o.openPrice < ticker.price) || (o.side == Sell && ticker.price < o.openPrice)
  {
    var orders: seq<Order> := [];
    var z := GetGridRange(ticker.price, p.lowerPrice, p.upperPrice, p.grids);
    ZoneBracketsPrice(ticker.price, p.lowerPrice, p.upperPrice, p.grids);
    var order := ZeroOrder.(botId := p.botId, exchange := ticker.exchange, symbol := ticker.symbol,
                            qty := p.qty, status := LimitStatus);
    var view := ToUpper(p.view);
    if view == ViewLong || view == "L" || view == ViewNeutral || view == "N" {
      order := BuyLeg(ticker, p, z, hasActive(Buy, z.lower), order);
      orders := orders + [order];
    }
    if view == ViewShort || view == "S" || view == ViewNeutral || view == "N" {
      if !hasActive(Sell, z.upper) {
        order := SellLeg(ticker, p, z, order);
        orders := orders + [order];
      }
    }
    return TradeOrders(orders, [], []);
  }

  /** With positive multipliers, a BUY intent without a nearby active order is bracketed by its
      stops (SL below, TP above) and a SELL intent the other way round. */
  lemma StopsBracketIntent(ticker: Ticker, p: GridParams, o: Order)
    requires p.lowerPrice < p.upperPrice && p.grids > 0.0 && p.sl > 0.0 && p.tp > 0.0
    ensures BuyIntent(ZoneOf(ticker, p), p, false, o) ==> o.sl < o.openPrice < o.tp
    ensures SellIntent(ZoneOf(ticker, p), p, o) ==> o.tp < o.openPrice < o.sl
  {
    var z := ZoneOf(ticker, p);
    assert z.width * p.sl > 0.0 && z.width * p.tp > 0.0;
  }
}
