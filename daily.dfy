/** The trend-following ("daily") strategy's tick (strategy/daily): in an uptrend it protects short
    positions with BUY stop-losses, takes profit on long positions that ran far enough, and may open
    a BUY limit below the market; the downtrend mirrors all three. The trend level, the volatility
    proxy, the limit price helper and the order database's answers are inputs. */
module Daily {
  import opened Types
  import opened Util

  /** The bot parameters the strategy reads. */
  datatype DailyParams = DailyParams(
    botId: int,
    baseQty: real,
    quoteQty: real,
    qtyDigits: int,
    priceDigits: int,
    view: string,
    /** The margin of safety, as a fraction of the previous bar's range. */
    mos: real,
    autoSL: bool,
    autoTP: bool,
    /** The take-profit distance, in volatility units. */
    atrTP: real,
    /** The trend levels at and beyond which the up- and downtrend rules apply. */
    trendUp1: int,
    trendDown1: int)

  /** What the order database answers during the tick. */
  datatype DailyStore = DailyStore(
    /** GetFilledOrdersBySide: the filled positions of a side. */
    filled: Side -> seq<Order>,
    /** GetSLOrder / GetTPOrder: whether a parent already has a protective order. */
    hasSL: string -> bool,
    hasTP: string -> bool,
    /** GetLimitOrdersBySide: the active limit orders of a side, newest first. */
    limits: Side -> seq<Order>)

  /** Everything one tick's rules read. */
  datatype Tick = Tick(
    ticker: Ticker,
    p: DailyParams,
    atr: real,
    db: DailyStore,
    /** GenID, read once for the tick. */
    genId: string,
    /** CalcLimitStop(side, price, 200, digits). */
    limitPrice: Side -> real)

  /** The newest bar has a zero among its prices. */
  predicate Incomplete(b: Bar) {
    b.open == 0.0 || b.high == 0.0 || b.low == 0.0 || b.close == 0.0
  }

  /** The quantity of a new order: the base quantity, raised to the quote amount's worth at the
      ticker price when that is larger. */
  function OpenQty(p: DailyParams, price: real): (q: real)
    requires price != 0.0
    ensures q == MaxReal(p.baseQty, NormalizeDouble(p.quoteQty / price, p.qtyDigits))
    ensures q >= p.baseQty && q >= NormalizeDouble(p.quoteQty / price, p.qtyDigits)
  {
    var q := NormalizeDouble(p.quoteQty / price, p.qtyDigits);
    if q > p.baseQty then q else p.baseQty
  }

  // ---------------------------------------------------------------------------------------------
  // Protective intents

  /** The four protective rules: the order type and the side of the intent. The parents are the
      filled positions of the opposite side. */
  datatype Rule = Rule(kind: OrderType, side: Side)

  const UpSL := Rule(SL, Buy)
  const UpTP := Rule(TP, Sell)
  const DownSL := Rule(SL, Sell)
  const DownTP := Rule(TP, Buy)

  /** The parent gets an intent: a stop-loss when it has none yet; a take-profit when it has none
      and the price moved beyond the volatility distance in its favour. */
  predicate Keep(rule: Rule, t: Tick, o: Order) {
    if rule.kind == SL then !t.db.hasSL(o.id)
    else if rule.side == Sell then t.ticker.price > o.openPrice + t.atr * t.p.atrTP && !t.db.hasTP(o.id)
    else t.ticker.price < o.openPrice - t.atr * t.p.atrTP && !t.db.hasTP(o.id)
  }

  /** The protective intent for a parent: a NEW stop order of the parent's quantity pointing at the
      parent, stop and limit prices 100 and 200 points (stop-loss) or 200 and 300 points
      (take-profit) from the ticker price. */
  function Make(rule: Rule, t: Tick, o: Order): (r: Order)
    ensures r.openOrderId == o.id && r.qty == o.qty && r.side == rule.side && r.orderType == rule.kind
    ensures r.status == New && r.botId == t.p.botId && r.id == t.genId
  {
    var d := t.p.priceDigits;
    var price := t.ticker.price;
    ZeroOrder.(id := t.genId, botId := t.p.botId, exchange := t.ticker.exchange, symbol := t.ticker.symbol,
               side := rule.side, orderType := rule.kind, status := New, qty := o.qty,
               stopPrice := if rule.kind == SL then CalcSLStop(rule.side, price, 100.0, d) else CalcTPStop(rule.side, price, 200.0, d),
               openPrice := if rule.kind == SL then CalcSLStop(rule.side, price, 200.0, d) else CalcTPStop(rule.side, price, 300.0, d),
               openOrderId := o.id)
  }

  /** How many parents get an intent: none exactly when no parent is kept, all exactly when every
      parent is. */
  function Count(parents: seq<Order>, rule: Rule, t: Tick): (n: nat)
    ensures n <= |parents|
    ensures n == 0 <==> forall j :: 0 <= j < |parents| ==> !Keep(rule, t, parents[j])
    ensures n == |parents| <==> forall j :: 0 <= j < |parents| ==> Keep(rule, t, parents[j])
  {
    if |parents| == 0 then 0
    else
      assert forall j :: 0 <= j < |parents| - 1 ==> parents[..|parents| - 1][j] == parents[j];
      Count(parents[..|parents| - 1], rule, t) + (if Keep(rule, t, parents[|parents| - 1]) then 1 else 0)
  }

  /** The intents of one rule, in the order of the parents. */
  function Protect(parents: seq<Order>, rule: Rule, t: Tick): (r: seq<Order>)
    ensures |r| == Count(parents, rule, t)
  {
    if |parents| == 0 then []
    else
      Protect(parents[..|parents| - 1], rule, t)
        + (if Keep(rule, t, parents[|parents| - 1]) then [Make(rule, t, parents[|parents| - 1])] else [])
  }

  /** Every intent protects a kept parent, and every kept parent is protected. */
  lemma {:induction false} ProtectExactlyKept(parents: seq<Order>, rule: Rule, t: Tick)
    ensures forall x :: x in Protect(parents, rule, t) ==>
              exists j :: 0 <= j < |parents| && Keep(rule, t, parents[j]) && x == Make(rule, t, parents[j])
    ensures forall j :: 0 <= j < |parents| && Keep(rule, t, parents[j]) ==> Make(rule, t, parents[j]) in Protect(parents, rule, t)
  {
    if |parents| > 0 {
      var init := parents[..|parents| - 1];
      ProtectExactlyKept(init, rule, t);
      assert forall j :: 0 <= j < |init| ==> init[j] == parents[j];
    }
  }

  /** With distinct parent ids, each kept parent has exactly one intent pointing at it. */
  lemma {:induction false} ProtectOnePerParent(parents: seq<Order>, rule: Rule, t: Tick, j: int)
    requires 0 <= j < |parents| && Keep(rule, t, parents[j])
    requires forall a, b :: 0 <= a < b < |parents| ==> parents[a].id != parents[b].id
    ensures |set x | x in Protect(parents, rule, t) && x.openOrderId == parents[j].id| == 1
  {
    ProtectExactlyKept(parents, rule, t);
    var m := Make(rule, t, parents[j]);
    var s := set x | x in Protect(parents, rule, t) && x.openOrderId == parents[j].id;
    forall x | x in s ensures x == m {
      var k :| 0 <= k < |parents| && Keep(rule, t, parents[k]) && x == Make(rule, t, parents[k]);
      assert parents[k].id == parents[j].id;
      assert k == j;
    }
    assert s == {m};
  }

  /** The loop over one rule's parents. */
  method AppendIntents(parents: seq<Order>, rule: Rule, t: Tick) returns (intents: seq<Order>)
    ensures intents == Protect(parents, rule, t)
  {
    intents := [];
    for i := 0 to |parents|
      invariant intents == Protect(parents[..i], rule, t)
    {
      var o := parents[i];
      assert parents[..i + 1][..i] == parents[..i];
      if !Keep(rule, t, o) {
        continue;
      }
      intents := intents + [Make(rule, t, o)];
    }
    assert parents[..|parents|] == parents;
  }

  /** Offsets of at least one point, two points apart, keep more than a rounding step apart. */
  lemma StepGaps(a: real, b: real, pow: real)
    requires pow > 0.0 && a >= 1.0 && b >= a + 2.0
    ensures a / pow - 0.5 / pow > 0.0
    ensures a / pow + 0.5 / pow < b / pow - 0.5 / pow
  {
    DivAdd(a, -0.5, pow);
    DivSub(b, 0.5, pow);
    DivAdd(a, 0.5, pow);
    DivStrict(a + 0.5, b - 0.5, pow);
    assert (a - 0.5) / pow > 0.0;
  }

  lemma DivStrict(x: real, y: real, pow: real)
    requires pow > 0.0 && x < y
    ensures x / pow < y / pow
  {
  }

  /** Moving a price up by at least one point, to offsets at least two points apart, keeps the
      results apart, and above the price. */
  lemma UpLadder(price: real, a: real, b: real, pow: real)
    requires pow > 0.0 && a >= 1.0 && b >= a + 2.0
    ensures price < ShiftUp(price, a, pow) < ShiftUp(price, b, pow)
  {
    StepGaps(a, b, pow);
  }

  lemma DownLadder(price: real, a: real, b: real, pow: real)
    requires pow > 0.0 && a >= 1.0 && b >= a + 2.0
    ensures ShiftDown(price, b, pow) < ShiftDown(price, a, pow) < price
  {
    StepGaps(a, b, pow);
  }

  /** The protective stop ladder: a BUY stop-loss stops above the price and is limited higher
      still, a SELL stop-loss mirrors it below; a SELL take-profit stops above the price and is
      limited higher, a BUY take-profit mirrors it below. */
  lemma StopLadder(price: real, d: int)
    ensures price < CalcSLStop(Buy, price, 100.0, d) < CalcSLStop(Buy, price, 200.0, d)
    ensures CalcSLStop(Sell, price, 200.0, d) < CalcSLStop(Sell, price, 100.0, d) < price
    ensures price < CalcTPStop(Sell, price, 200.0, d) < CalcTPStop(Sell, price, 300.0, d)
    ensures CalcTPStop(Buy, price, 300.0, d) < CalcTPStop(Buy, price, 200.0, d) < price
  {
    var pow := Pow10(d);
    UpLadder(price, 100.0, 200.0, pow);
    DownLadder(price, 100.0, 200.0, pow);
    UpLadder(price, 200.0, 300.0, pow);
    DownLadder(price, 200.0, 300.0, pow);
  }

  // ---------------------------------------------------------------------------------------------
  // Open intents

  /** A new limit order may be added: none is active, or the newest is older than the current bar
      and fewer than three are active. */
  predicate Room(active: seq<Order>, barTime: int) {
    |active| == 0 || (active[0].openTime < barTime && |active| < 3)
  }

  /** The price is below the previous bar's high by more than the margin, and below its close. */
  predicate BuyDip(t: Tick, prev: Bar) {
    t.ticker.price < prev.high - (prev.high - prev.low) * t.p.mos && t.ticker.price < prev.close
  }

  /** The price is above the previous bar's low by more than the margin, and above its close. */
  predicate SellRally(t: Tick, prev: Bar) {
    t.ticker.price > prev.low + (prev.high - prev.low) * t.p.mos && t.ticker.price > prev.close
  }

  /** The NEW limit order of a side at the limit price, of the tick's quantity. */
  function OpenIntent(t: Tick, side: Side): Order
    requires t.ticker.price != 0.0
  {
    ZeroOrder.(id := t.genId, botId := t.p.botId, exchange := t.ticker.exchange, symbol := t.ticker.symbol,
               side := side, orderType := Limit, status := New,
               qty := OpenQty(t.p, t.ticker.price), openPrice := t.limitPrice(side))
  }

  predicate OpensLong(t: Tick, bars: seq<Bar>)
    requires |bars| >= 2
  {
    (t.p.view == ViewLong || t.p.view == ViewNeutral) && BuyDip(t, bars[|bars| - 2])
      && Room(t.db.limits(Buy), bars[|bars| - 1].time)
  }

  predicate OpensShort(t: Tick, bars: seq<Bar>)
    requires |bars| >= 2
  {
    (t.p.view == ViewShort || t.p.view == ViewNeutral) && SellRally(t, bars[|bars| - 2])
      && Room(t.db.limits(Sell), bars[|bars| - 1].time)
  }

  // ---------------------------------------------------------------------------------------------
  // The tick

  /** The close intents of one trend direction: its stop-losses, then its take-profits. */
  function TrendCloses(t: Tick, sl: Rule, tp: Rule): seq<Order> {
    (if t.p.autoSL then Protect(t.db.filled(Reverse(sl.side)), sl, t) else [])
      + (if t.p.autoTP then Protect(t.db.filled(Reverse(tp.side)), tp, t) else [])
  }

  /** The close intents of the tick: uptrend stop-losses and take-profits, then the downtrend
      ones. */
  function CloseIntents(t: Tick, trend: int): seq<Order> {
    (if trend >= t.p.trendUp1 then TrendCloses(t, UpSL, UpTP) else [])
      + (if trend <= t.p.trendDown1 then TrendCloses(t, DownSL, DownTP) else [])
  }

  /** The two protective loops of one trend direction. */
  method AppendTrendCloses(t: Tick, sl: Rule, tp: Rule) returns (closes: seq<Order>)
    ensures closes == TrendCloses(t, sl, tp)
  {
    var sls: seq<Order> := [];
    if t.p.autoSL {
      sls := AppendIntents(t.db.filled(Reverse(sl.side)), sl, t);
    }
    var tps: seq<Order> := [];
    if t.p.autoTP {
      tps := AppendIntents(t.db.filled(Reverse(tp.side)), tp, t);
    }
    closes := sls + tps;
  }

  function OpenIntents(t: Tick, trend: int, bars: seq<Bar>): seq<Order>
    requires |bars| >= 2 && t.ticker.price != 0.0
  {
    (if trend >= t.p.trendUp1 && OpensLong(t, bars) then [OpenIntent(t, Buy)] else [])
      + (if trend <= t.p.trendDown1 && OpensShort(t, bars) then [OpenIntent(t, Sell)] else [])
  }

  function OnTickSpec(t: Tick, trend: int, bars: seq<Bar>): Option<TradeOrders>
    requires |bars| >= 2 && t.ticker.price != 0.0
  {
    if Incomplete(bars[|bars| - 1]) then None
    else Some(TradeOrders(OpenIntents(t, trend, bars), CloseIntents(t, trend), []))
  }

  /** The long entry of an uptrend tick: a BUY limit order on a dip, when the view allows long and
      there is room. */
  method LongEntry(t: Tick, bars: seq<Bar>, qty: real) returns (opens: seq<Order>)
    requires |bars| >= 2 && t.ticker.price != 0.0 && qty == OpenQty(t.p, t.ticker.price)
    ensures opens == (if OpensLong(t, bars) then [OpenIntent(t, Buy)] else [])
  {
    var p0 := bars[|bars| - 1];
    var p1 := bars[|bars| - 2];
    var p := t.p;
    var price := t.ticker.price;
    var mos := (p1.high - p1.low) * p.mos;
    opens := [];
    if (p.view == ViewLong || p.view == ViewNeutral) && price < p1.high - mos && price < p1.close {
      var activeOrders := t.db.limits(Buy);
      if |activeOrders| == 0 || (activeOrders[0].openTime < p0.time && |activeOrders| < 3) {
        var o := ZeroOrder.(id := t.genId, botId := p.botId, exchange := t.ticker.exchange,
                            symbol := t.ticker.symbol, side := Buy, orderType := Limit, status := New,
                            qty := qty, openPrice := t.limitPrice(Buy));
        opens := [o];
      }
    }
  }

  /** The short entry of a downtrend tick: a SELL limit order on a rally, when the view allows
      short and there is room. */
  method ShortEntry(t: Tick, bars: seq<Bar>, qty: real) returns (opens: seq<Order>)
    requires |bars| >= 2 && t.ticker.price != 0.0 && qty == OpenQty(t.p, t.ticker.price)
    ensures opens == (if OpensShort(t, bars) then [OpenIntent(t, Sell)] else [])
  {
    var p0 := bars[|bars| - 1];
    var p1 := bars[|bars| - 2];
    var p := t.p;
    var price := t.ticker.price;
    var mos := (p1.high - p1.low) * p.mos;
    opens := [];
    if (p.view == ViewShort || p.view == ViewNeutral) && price > p1.low + mos && price > p1.close {
      var activeOrders := t.db.limits(Sell);
      if |activeOrders| == 0 || (activeOrders[0].openTime < p0.time && |activeOrders| < 3) {
        var o := ZeroOrder.(id := t.genId, botId := p.botId, exchange := t.ticker.exchange,
                            symbol := t.ticker.symbol, side := Sell, orderType := Limit, status := New,
                            qty := qty, openPrice := t.limitPrice(Sell));
        opens := [o];
      }
    }
  }

  /** OnTick. */
  method OnTick(t: Tick, trend: int, bars: seq<Bar>) returns (r: Option<TradeOrders>)
    requires |bars| >= 2 && t.ticker.price != 0.0
    ensures r == OnTickSpec(t, trend, bars)
  {
    var openOrders: seq<Order> := [];
    var closeOrders: seq<Order> := [];
    var p0 := bars[|bars| - 1];
    if p0.open == 0.0 || p0.high == 0.0 || p0.low == 0.0 || p0.close == 0.0 {
      return None;
    }
    var p := t.p;
    var price := t.ticker.price;
    var qty := p.baseQty;
    var q := NormalizeDouble(p.quoteQty / price, p.qtyDigits);
    if q > p.baseQty {
      qty := q;
    }
    var upCloses: seq<Order> := [];
    var downCloses: seq<Order> := [];

    if trend >= p.trendUp1 {
      upCloses := AppendTrendCloses(t, UpSL, UpTP);
      var opens := LongEntry(t, bars, qty);
      openOrders := openOrders + opens;
    }

    if trend <= p.trendDown1 {
      downCloses := AppendTrendCloses(t, DownSL, DownTP);
      var opens := ShortEntry(t, bars, qty);
      openOrders := openOrders + opens;
    }

    closeOrders := upCloses + downCloses;
    assert closeOrders == CloseIntents(t, trend);
    assert openOrders == OpenIntents(t, trend, bars);
    return Some(TradeOrders(openOrders, closeOrders, []));
  }

  // ---------------------------------------------------------------------------------------------
  // Properties of the tick

  /** No batch when the newest bar is incomplete; otherwise a batch that never cancels. */
  lemma NoBatchIffIncomplete(t: Tick, trend: int, bars: seq<Bar>)
    requires |bars| >= 2 && t.ticker.price != 0.0
    ensures OnTickSpec(t, trend, bars).None? <==> Incomplete(bars[|bars| - 1])
    ensures OnTickSpec(t, trend, bars).Some? ==> OnTickSpec(t, trend, bars).value.cancelOrders == []
  {
  }

  /** Between the two trend levels the batch is empty. */
  lemma NeutralTrendEmpty(t: Tick, trend: int, bars: seq<Bar>)
    requires |bars| >= 2 && t.ticker.price != 0.0 && !Incomplete(bars[|bars| - 1])
    requires t.p.trendDown1 < trend < t.p.trendUp1
    ensures OnTickSpec(t, trend, bars) == Some(TradeOrders([], [], []))
  {
    assert CloseIntents(t, trend) == [] + [];
    assert OpenIntents(t, trend, bars) == [] + [];
  }

  /** In an uptrend with auto stop-loss, every filled SELL position without a stop-loss gets exactly
      one intent pointing at it, a BUY stop-loss of its quantity, provided its id is shared by no
      other SELL position and by no BUY position (whose take-profits the same tick may add). */
  lemma UptrendStopLossPerShort(t: Tick, trend: int, bars: seq<Bar>, j: int)
    requires |bars| >= 2 && t.ticker.price != 0.0 && !Incomplete(bars[|bars| - 1])
    requires trend >= t.p.trendUp1 && trend > t.p.trendDown1 && t.p.autoSL
    requires 0 <= j < |t.db.filled(Sell)| && !t.db.hasSL(t.db.filled(Sell)[j].id)
    requires forall a, b :: 0 <= a < b < |t.db.filled(Sell)| ==> t.db.filled(Sell)[a].id != t.db.filled(Sell)[b].id
    requires forall o :: o in t.db.filled(Buy) ==> o.id != t.db.filled(Sell)[j].id
    ensures var closes := OnTickSpec(t, trend, bars).value.closeOrders;
            |set x | x in closes && x.openOrderId == t.db.filled(Sell)[j].id| == 1
    ensures var x := Make(UpSL, t, t.db.filled(Sell)[j]);
            x in OnTickSpec(t, trend, bars).value.closeOrders && x.side == Buy && x.orderType == SL
              && x.qty == t.db.filled(Sell)[j].qty
  {
    var id := t.db.filled(Sell)[j].id;
    var sls := Protect(t.db.filled(Sell), UpSL, t);
    var tps := if t.p.autoTP then Protect(t.db.filled(Buy), UpTP, t) else [];
    assert OnTickSpec(t, trend, bars).value.closeOrders == sls + tps;
    ProtectOnePerParent(t.db.filled(Sell), UpSL, t, j);
    ProtectExactlyKept(t.db.filled(Sell), UpSL, t);
    if t.p.autoTP {
      ProtectAvoids(t.db.filled(Buy), UpTP, t, id);
    }
    PointingIgnoresOthers(sls, tps, id);
  }

  /** The downtrend mirror: with auto stop-loss, every filled BUY position without a stop-loss gets
      exactly one intent pointing at it, a SELL stop-loss of its quantity, provided its id is shared
      by no other BUY position and by no SELL position (whose take-profits the same tick may add). */
  lemma DowntrendStopLossPerLong(t: Tick, trend: int, bars: seq<Bar>, j: int)
    requires |bars| >= 2 && t.ticker.price != 0.0 && !Incomplete(bars[|bars| - 1])
    requires trend <= t.p.trendDown1 && trend < t.p.trendUp1 && t.p.autoSL
    requires 0 <= j < |t.db.filled(Buy)| && !t.db.hasSL(t.db.filled(Buy)[j].id)
    requires forall a, b :: 0 <= a < b < |t.db.filled(Buy)| ==> t.db.filled(Buy)[a].id != t.db.filled(Buy)[b].id
    requires forall o :: o in t.db.filled(Sell) ==> o.id != t.db.filled(Buy)[j].id
    ensures var closes := OnTickSpec(t, trend, bars).value.closeOrders;
            |set x | x in closes && x.openOrderId == t.db.filled(Buy)[j].id| == 1
    ensures var x := Make(DownSL, t, t.db.filled(Buy)[j]);
            x in OnTickSpec(t, trend, bars).value.closeOrders && x.side == Sell && x.orderType == SL
              && x.qty == t.db.filled(Buy)[j].qty
  {
    var id := t.db.filled(Buy)[j].id;
    var sls := Protect(t.db.filled(Buy), DownSL, t);
    var tps := if t.p.autoTP then Protect(t.db.filled(Sell), DownTP, t) else [];
    assert OnTickSpec(t, trend, bars).value.closeOrders == sls + tps;
    ProtectOnePerParent(t.db.filled(Buy), DownSL, t, j);
    ProtectExactlyKept(t.db.filled(Buy), DownSL, t);
    if t.p.autoTP {
      ProtectAvoids(t.db.filled(Sell), DownTP, t, id);
    }
    PointingIgnoresOthers(sls, tps, id);
  }

  /** Intents made for parents that all have other ids never point at `id`. */
  lemma ProtectAvoids(parents: seq<Order>, rule: Rule, t: Tick, id: string)
    requires forall o :: o in parents ==> o.id != id
    ensures forall x :: x in Protect(parents, rule, t) ==> x.openOrderId != id
  {
    ProtectExactlyKept(parents, rule, t);
  }

  /** Appending intents that point elsewhere adds none pointing at `id`. */
  lemma PointingIgnoresOthers(a: seq<Order>, b: seq<Order>, id: string)
    requires forall x :: x in b ==> x.openOrderId != id
    ensures (set x | x in a + b && x.openOrderId == id) == (set x | x in a && x.openOrderId == id)
  {
  }

  /** Every close intent of the tick protects a filled position of the opposite side, of that
      position's quantity; a take-profit only one whose price moved beyond the volatility distance
      in its favour. */
  lemma CloseIntentsProtectParents(t: Tick, trend: int, x: Order)
    requires x in CloseIntents(t, trend)
    ensures x.side == Buy || x.side == Sell
    ensures exists o :: o in t.db.filled(Reverse(x.side)) && x.openOrderId == o.id && x.qty == o.qty
    ensures x.orderType == TP && x.side == Sell ==>
              exists o :: o in t.db.filled(Buy) && x.openOrderId == o.id && t.ticker.price > o.openPrice + t.atr * t.p.atrTP
    ensures x.orderType == TP && x.side == Buy ==>
              exists o :: o in t.db.filled(Sell) && x.openOrderId == o.id && t.ticker.price < o.openPrice - t.atr * t.p.atrTP
  {
    var up := if trend >= t.p.trendUp1 then TrendCloses(t, UpSL, UpTP) else [];
    var rule, o;
    if x in up {
      rule, o := TrendParent(t, UpSL, UpTP, x);
    } else {
      rule, o := TrendParent(t, DownSL, DownTP, x);
    }
    assert rule in {UpSL, UpTP, DownSL, DownTP};
    assert x.side == rule.side && x.orderType == rule.kind;
    assert o in t.db.filled(Reverse(x.side)) && x.openOrderId == o.id && x.qty == o.qty;
  }

  /** An intent of one trend direction was made by its stop-loss rule or its take-profit rule for
      a kept parent. */
  lemma TrendParent(t: Tick, sl: Rule, tp: Rule, x: Order) returns (rule: Rule, o: Order)
    requires x in TrendCloses(t, sl, tp)
    ensures rule == sl || rule == tp
    ensures o in t.db.filled(Reverse(rule.side)) && Keep(rule, t, o) && x == Make(rule, t, o)
  {
    var a := if t.p.autoSL then Protect(t.db.filled(Reverse(sl.side)), sl, t) else [];
    if x in a {
      rule := sl;
    } else {
      rule := tp;
    }
    o := ParentOf(t.db.filled(Reverse(rule.side)), rule, t, x);
  }

  /** The parent an intent of one rule was made for. */
  lemma ParentOf(parents: seq<Order>, rule: Rule, t: Tick, x: Order) returns (o: Order)
    requires x in Protect(parents, rule, t)
    ensures o in parents && Keep(rule, t, o) && x == Make(rule, t, o)
  {
    ProtectExactlyKept(parents, rule, t);
    var j :| 0 <= j < |parents| && Keep(rule, t, parents[j]) && x == Make(rule, t, parents[j]);
    o := parents[j];
  }

  /** A BUY limit is opened exactly when the trend is up, the view allows long, the price dipped
      below the previous bar's high by the margin and below its close, and there is room; it has
      the tick's quantity. */
  lemma OpenGates(t: Tick, trend: int, bars: seq<Bar>)
    requires |bars| >= 2 && t.ticker.price != 0.0 && !Incomplete(bars[|bars| - 1])
    requires trend >= t.p.trendUp1 && trend > t.p.trendDown1
    ensures var opens := OnTickSpec(t, trend, bars).value.openOrders;
            (|opens| == 1 <==> OpensLong(t, bars)) && (|opens| == 0 <==> !OpensLong(t, bars))
    ensures var opens := OnTickSpec(t, trend, bars).value.openOrders;
            |opens| == 1 ==> opens[0].side == Buy && opens[0].orderType == Limit && opens[0].qty >= t.p.baseQty
  {
  }

  /** The downtrend mirror: a SELL limit is opened exactly when the view allows short, the price
      rallied above the previous bar's low by the margin and above its close, and there is room. */
  lemma OpenGatesSell(t: Tick, trend: int, bars: seq<Bar>)
    requires |bars| >= 2 && t.ticker.price != 0.0 && !Incomplete(bars[|bars| - 1])
    requires trend <= t.p.trendDown1 && trend < t.p.trendUp1
    ensures var opens := OnTickSpec(t, trend, bars).value.openOrders;
            (|opens| == 1 <==> OpensShort(t, bars)) && (|opens| == 0 <==> !OpensShort(t, bars))
    ensures var opens := OnTickSpec(t, trend, bars).value.openOrders;
            |opens| == 1 ==> opens[0].side == Sell && opens[0].orderType == Limit && opens[0].qty >= t.p.baseQty
  {
  }
}
