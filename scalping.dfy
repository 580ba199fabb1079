/** The scalping strategy's tick (strategy/scalping): close flags first, then the opposite-side
    closes, then the protective closes, and only when none of those apply a single LIMIT entry
    against the short-term signals, kept a minimum gap away from the nearest order of its side. */
module Scalping {
  import opened Types
  import opened Util
  import opened Store

  /** The bot parameters the scalping strategy reads. */
  datatype ScalpParams = ScalpParams(
    botId: int,
    exchange: string,
    symbol: string,
    closeLong: bool,
    closeShort: bool,
    autoSL: bool,
    autoTP: bool,
    baseQty: real,
    quoteQty: real,
    qtyDigits: nat,
    view: string,
    product: Product,
    orderGap: real)

  /** What the shared strategy helpers and the indicators answer during the tick. Their bodies are
      not part of this model, so their results are inputs. */
  datatype Helpers = Helpers(
    /** common.CloseLong, common.CloseShort and common.CloseOpposite. */
    closeLong: seq<Order>,
    closeShort: seq<Order>,
    closeOpposite: seq<Order>,
    /** common.SLLong, SLShort, TimeSL, TPLong, TPShort and TimeTP. */
    slLong: seq<Order>,
    slShort: seq<Order>,
    timeSL: seq<Order>,
    tpLong: seq<Order>,
    tpShort: seq<Order>,
    timeTP: seq<Order>,
    /** The last two values of the weighted moving averages of the highs and of the lows. */
    hma0: real,
    hma1: real,
    lma0: real,
    lma1: real,
    /** common.GetHLRatio over the one-minute bars. */
    r5m: real,
    /** CalcStopLowerTicker and CalcStopUpperTicker: the BUY and SELL entry prices. */
    lowerTicker: real,
    upperTicker: real)

  /** Everything one tick reads: the ticker, the parameters, the helper answers, the order table,
      the 50 bars of the signal timeframe, the 5 one-minute bars and the identifier GenID gives. */
  datatype ScalpTick = ScalpTick(
    ticker: Ticker,
    p: ScalpParams,
    h: Helpers,
    rows: seq<Order>,
    bars: seq<Bar>,
    bars1m: seq<Bar>,
    genId: string)

  const SignalBars := 50
  const MinuteBars := 5

  function QueryOf(t: ScalpTick): Query {
    Query(t.p.botId, t.p.exchange, t.p.symbol, NoSide, 0.0, 0.0, 0)
  }

  // ---------------------------------------------------------------------------------------------
  // Close and cancel batches

  /** The NEW futures stop rows and then the NEW limit rows of one position side. */
  function SideCancels(t: ScalpTick, pos: PosSide): seq<Order> {
    if pos == Long then GetNewStopLongOrders(t.rows, QueryOf(t)) + GetNewLimitLongOrders(t.rows, QueryOf(t))
    else GetNewStopShortOrders(t.rows, QueryOf(t)) + GetNewLimitShortOrders(t.rows, QueryOf(t))
  }

  /** A row SideCancels picks for a position side. */
  predicate Pending(t: ScalpTick, pos: PosSide, o: Order) {
    o in t.rows && (StopPosMatch(QueryOf(t), pos, o) || LimitPosMatch(QueryOf(t), pos, New, o))
  }

  /** The batch of the close flags: each flagged side's close intents and the cancels of its
      pending orders. */
  function FlagBatch(t: ScalpTick): TradeOrders {
    TradeOrders([],
                (if t.p.closeLong then t.h.closeLong else []) + (if t.p.closeShort then t.h.closeShort else []),
                (if t.p.closeLong then SideCancels(t, Long) else []) + (if t.p.closeShort then SideCancels(t, Short) else []))
  }

  /** The side whose pending orders go with the opposite-side closes: LONG when the first close
      intent is a BUY, SHORT otherwise. */
  function OppositePos(closes: seq<Order>): PosSide
    requires |closes| > 0
  {
    if closes[0].side == Buy then Long else Short
  }

  /** The protective close intents: stop-losses when auto-SL is on, take-profits when auto-TP is. */
  function ProtectiveCloses(t: ScalpTick): seq<Order> {
    (if t.p.autoSL then t.h.slLong + t.h.slShort + t.h.timeSL else [])
      + (if t.p.autoTP then t.h.tpLong + t.h.tpShort + t.h.timeTP else [])
  }

  /** Too little history on the signal timeframe: fewer than 50 bars, or one of the last two bars
      has no open price. */
  predicate BarsMissing(bars: seq<Bar>) {
    |bars| < SignalBars || bars[|bars| - 1].open == 0.0 || bars[|bars| - 2].open == 0.0
  }

  /** Too little one-minute history: fewer than 5 bars, or the last has no open price. */
  predicate MinuteBarsMissing(bars: seq<Bar>) {
    |bars| < MinuteBars || bars[|bars| - 1].open == 0.0
  }

  // ---------------------------------------------------------------------------------------------
  // Signals

  datatype Signals = Signals(closeLong: bool, closeShort: bool, openLong: bool, openShort: bool)

  /** The highest high and the lowest low of the two bars before the last one. */
  function HighestHigh(bars: seq<Bar>): (hh: real)
    requires |bars| >= 3
    ensures hh >= bars[|bars| - 2].high && hh >= bars[|bars| - 3].high
    ensures hh == bars[|bars| - 2].high || hh == bars[|bars| - 3].high
  {
    var h1, h2 := bars[|bars| - 2].high, bars[|bars| - 3].high;
    if h2 > h1 then h2 else h1
  }

  function LowestLow(bars: seq<Bar>): (ll: real)
    requires |bars| >= 3
    ensures ll <= bars[|bars| - 2].low && ll <= bars[|bars| - 3].low
    ensures ll == bars[|bars| - 2].low || ll == bars[|bars| - 3].low
  {
    var l1, l2 := bars[|bars| - 2].low, bars[|bars| - 3].low;
    if l2 < l1 then l2 else l1
  }

  /** Close a long when both averages fall or the price is under the lowest low; open one when the
      low average rises, the last low is above the lowest low, the one-minute ratio is under 0.1
      and no long close is due. The short side mirrors it with the ratio over 0.9. */
  function SignalsOf(t: ScalpTick): Signals
    requires |t.bars| >= 3
  {
    var h := t.h;
    var price := t.ticker.price;
    var hh, ll := HighestHigh(t.bars), LowestLow(t.bars);
    var h0, l0 := t.bars[|t.bars| - 1].high, t.bars[|t.bars| - 1].low;
    var closeLong := (h.hma1 > h.hma0 && h.lma1 > h.lma0) || ll > price;
    var closeShort := (h.hma1 < h.hma0 && h.lma1 < h.lma0) || hh < price;
    Signals(closeLong, closeShort,
            h.lma1 < h.lma0 && ll < l0 && h.r5m < 0.1 && !closeLong,
            h.hma1 > h.hma0 && hh > h0 && h.r5m > 0.9 && !closeShort)
  }

  // ---------------------------------------------------------------------------------------------
  // Entries

  /** The entry quantity: the base quantity or the quote amount's worth, whichever is larger, both
      rounded to the quantity digits. */
  function EntryQty(p: ScalpParams, price: real): (q: real)
    requires price != 0.0
    ensures q == MaxReal(NormalizeDouble(p.baseQty, p.qtyDigits), NormalizeDouble(p.quoteQty / price, p.qtyDigits))
  {
    var base := NormalizeDouble(p.baseQty, p.qtyDigits);
    var qty := NormalizeDouble(p.quoteQty / price, p.qtyDigits);
    if qty > base then qty else base
  }

  /** The query of the nearest-order check for an entry of `side` at `price`. */
  function NearQuery(t: ScalpTick, side: Side, price: real): Query {
    QueryOf(t).(side := side, openPrice := price)
  }

  /** No order of the entry's side is within the order gap on the entry's losing side: a BUY
      needs the nearest BUY at least the gap above it, a SELL the nearest SELL at least the gap
      below it. */
  predicate GapClear(t: ScalpTick, side: Side, price: real) {
    var n := Nearest(t.rows, NearQuery(t, side, price));
    n.None? || (if side == Buy then n.value.openPrice - price else price - n.value.openPrice) >= t.p.orderGap
  }

  /** The LIMIT entry the tick proposes on one side. */
  function Entry(t: ScalpTick, side: Side, price: real): (o: Order)
    requires t.ticker.price != 0.0
    ensures o.side == side && o.orderType == Limit && o.status == New && o.openPrice == price
    ensures o.qty == EntryQty(t.p, t.ticker.price) && o.id == t.genId && o.botId == t.p.botId
    ensures o.posSide == (if t.p.product == Futures then (if side == Buy then Long else Short) else NoPos)
  {
    var o := ZeroOrder.(id := t.genId, botId := t.p.botId, exchange := t.p.exchange, symbol := t.p.symbol,
                        side := side, orderType := Limit, status := New,
                        qty := EntryQty(t.p, t.ticker.price), openPrice := price);
    if t.p.product == Futures then o.(posSide := if side == Buy then Long else Short) else o
  }

  predicate LongAllowed(view: string) {
    view == ViewNeutral || view == ViewLong
  }

  predicate ShortAllowed(view: string) {
    view == ViewNeutral || view == ViewShort
  }

  function Entries(t: ScalpTick, s: Signals): seq<Order>
    requires t.ticker.price != 0.0
  {
    (if s.openLong && LongAllowed(t.p.view) && GapClear(t, Buy, t.h.lowerTicker)
     then [Entry(t, Buy, t.h.lowerTicker)] else [])
      + (if s.openShort && ShortAllowed(t.p.view) && GapClear(t, Sell, t.h.upperTicker)
         then [Entry(t, Sell, t.h.upperTicker)] else [])
  }

  /** The tick's outcome, in the order the checks are made. */
  function OnTickSpec(t: ScalpTick): Option<TradeOrders>
    requires t.ticker.price != 0.0
  {
    if t.p.closeLong || t.p.closeShort then Some(FlagBatch(t))
    else if |t.h.closeOpposite| > 0 then
      Some(TradeOrders([], t.h.closeOpposite, SideCancels(t, OppositePos(t.h.closeOpposite))))
    else SignalSpec(t)
  }

  /** The outcome once neither a close flag nor an opposite close applies: the history checks,
      the protective closes, and then the entries. */
  function SignalSpec(t: ScalpTick): Option<TradeOrders>
    requires t.ticker.price != 0.0
  {
    if BarsMissing(t.bars) then None
    else if |ProtectiveCloses(t)| > 0 then Some(TradeOrders([], ProtectiveCloses(t), []))
    else if MinuteBarsMissing(t.bars1m) then None
    else
      var s := SignalsOf(t);
      if s.openLong && s.openShort then None
      else Some(TradeOrders(Entries(t, s), [], []))
  }

  // ---------------------------------------------------------------------------------------------
  // The tick

  /** The NEW stop rows and then the NEW limit rows of one side. */
  method CancelSide(t: ScalpTick, pos: PosSide) returns (cancels: seq<Order>)
    ensures cancels == SideCancels(t, pos)
  {
    var q := QueryOf(t);
    if pos == Long {
      cancels := GetNewStopLongOrders(t.rows, q);
      cancels := cancels + GetNewLimitLongOrders(t.rows, q);
    } else {
      cancels := GetNewStopShortOrders(t.rows, q);
      cancels := cancels + GetNewLimitShortOrders(t.rows, q);
    }
  }

  /** The entry step of one side: asks the table for the nearest order of that side and appends
      the entry when the gap is clear. */
  method OpenSide(t: ScalpTick, side: Side, price: real, opens0: seq<Order>) returns (opens: seq<Order>)
    requires t.ticker.price != 0.0
    ensures opens == opens0 + (if GapClear(t, side, price) then [Entry(t, side, price)] else [])
  {
    opens := opens0;
    var norder := GetNearestOrder(t.rows, NearQuery(t, side, price));
    var gap := if norder.Some? then (if side == Buy then norder.value.openPrice - price else price - norder.value.openPrice) else 0.0;
    if norder.None? || gap >= t.p.orderGap {
      var o := ZeroOrder.(id := t.genId, botId := t.p.botId, exchange := t.p.exchange, symbol := t.p.symbol,
                          side := side, orderType := Limit, status := New,
                          qty := EntryQty(t.p, t.ticker.price), openPrice := price);
      if t.p.product == Futures {
        o := o.(posSide := if side == Buy then Long else Short);
      }
      opens := opens + [o];
    }
  }

  /** The close-flag branch: each flagged side's cancels and close intents. */
  method FlagStep(t: ScalpTick) returns (b: TradeOrders)
    ensures b == FlagBatch(t)
  {
    var longCloses, longCancels: seq<Order> := [], [];
    var shortCloses, shortCancels: seq<Order> := [], [];
    if t.p.closeLong {
      longCancels := CancelSide(t, Long);
      longCloses := t.h.closeLong;
    }
    if t.p.closeShort {
      shortCancels := CancelSide(t, Short);
      shortCloses := t.h.closeShort;
    }
    return TradeOrders([], longCloses + shortCloses, longCancels + shortCancels);
  }

  /** The entry branch: the BUY step, then the SELL step, each when its signal holds and the view
      allows its side. */
  method EntryStep(t: ScalpTick, s: Signals) returns (openOrders: seq<Order>)
    requires t.ticker.price != 0.0
    ensures openOrders == Entries(t, s)
  {
    openOrders := [];
    if s.openLong && (t.p.view == ViewNeutral || t.p.view == ViewLong) {
      openOrders := OpenSide(t, Buy, t.h.lowerTicker, openOrders);
    }
    if s.openShort && (t.p.view == ViewNeutral || t.p.view == ViewShort) {
      openOrders := OpenSide(t, Sell, t.h.upperTicker, openOrders);
    }
  }

  /** OnTick: the batch of the first check that applies, or no batch. */
  method OnTick(t: ScalpTick) returns (r: Option<TradeOrders>)
    requires t.ticker.price != 0.0
    ensures r == OnTickSpec(t)
  {
    if t.p.closeLong || t.p.closeShort {
      var b := FlagStep(t);
      return Some(b);
    }

    var closeOrders := t.h.closeOpposite;
    if |closeOrders| > 0 {
      var cancelOrders;
      if closeOrders[0].side == Buy {
        cancelOrders := CancelSide(t, Long);
      } else {
        cancelOrders := CancelSide(t, Short);
      }
      return Some(TradeOrders([], closeOrders, cancelOrders));
    }
    r := SignalStep(t);
  }

  /** The rest of the tick: the history checks, the protective closes, then the entries. */
  method SignalStep(t: ScalpTick) returns (r: Option<TradeOrders>)
    requires t.ticker.price != 0.0
    ensures r == SignalSpec(t)
  {
    var prices := t.bars;
    if |prices| < SignalBars || prices[|prices| - 1].open == 0.0 || prices[|prices| - 2].open == 0.0 {
      return None;
    }

    var closeOrders: seq<Order>;
    var slCloses: seq<Order> := [];
    if t.p.autoSL {
      slCloses := t.h.slLong + t.h.slShort + t.h.timeSL;
    }
    var tpCloses: seq<Order> := [];
    if t.p.autoTP {
      tpCloses := t.h.tpLong + t.h.tpShort + t.h.timeTP;
    }
    closeOrders := slCloses + tpCloses;
    if |closeOrders| > 0 {
      return Some(TradeOrders([], closeOrders, []));
    }

    var prices1min := t.bars1m;
    if |prices1min| < MinuteBars || prices1min[|prices1min| - 1].open == 0.0 {
      return None;
    }

    var s := SignalsOf(t);
    if s.openLong && s.openShort {
      return None;
    }
    var openOrders := EntryStep(t, s);
    return Some(TradeOrders(openOrders, [], []));
  }

  // ---------------------------------------------------------------------------------------------
  // Properties

  /** With a close flag set, the batch holds no entries, the flagged sides' close intents, and
      cancels exactly the pending NEW stop and limit rows of the flagged sides. */
  lemma FlagsShortCircuit(t: ScalpTick)
    requires t.ticker.price != 0.0 && (t.p.closeLong || t.p.closeShort)
    ensures OnTickSpec(t).Some? && OnTickSpec(t).value.openOrders == []
    ensures forall o :: o in OnTickSpec(t).value.closeOrders <==>
              (t.p.closeLong && o in t.h.closeLong) || (t.p.closeShort && o in t.h.closeShort)
    ensures forall o :: o in OnTickSpec(t).value.cancelOrders <==>
              (t.p.closeLong && Pending(t, Long, o)) || (t.p.closeShort && Pending(t, Short, o))
  {
    var b := FlagBatch(t);
    SideCancelsIffPending(t, Long);
    SideCancelsIffPending(t, Short);
    forall o ensures o in b.cancelOrders <==> (t.p.closeLong && Pending(t, Long, o)) || (t.p.closeShort && Pending(t, Short, o)) {
    }
  }

  /** When no flag is set and the opposite-side closes are not empty, the batch is those closes and
      the cancels of the pending rows of the side the first close intent's side names; no entry. */
  lemma OppositeCancelsOneSide(t: ScalpTick)
    requires t.ticker.price != 0.0 && !t.p.closeLong && !t.p.closeShort && |t.h.closeOpposite| > 0
    ensures OnTickSpec(t).Some? && OnTickSpec(t).value.openOrders == []
    ensures OnTickSpec(t).value.closeOrders == t.h.closeOpposite
    ensures var pos := if t.h.closeOpposite[0].side == Buy then Long else Short;
            forall o :: o in OnTickSpec(t).value.cancelOrders <==> Pending(t, pos, o)
  {
    SideCancelsIffPending(t, OppositePos(t.h.closeOpposite));
  }

  /** SideCancels picks exactly the pending rows of its side. */
  lemma SideCancelsIffPending(t: ScalpTick, pos: PosSide)
    requires pos == Long || pos == Short
    ensures forall o :: o in SideCancels(t, pos) <==> Pending(t, pos, o)
  {
  }

  /** Missing history gives no batch once no close flag or opposite close applies. */
  lemma NoBatchWithoutHistory(t: ScalpTick)
    requires t.ticker.price != 0.0 && !t.p.closeLong && !t.p.closeShort && |t.h.closeOpposite| == 0
    ensures BarsMissing(t.bars) ==> OnTickSpec(t).None?
    ensures !BarsMissing(t.bars) && |ProtectiveCloses(t)| == 0 && MinuteBarsMissing(t.bars1m) ==> OnTickSpec(t).None?
  {
  }

  /** Protective closes, when there are any, are the whole batch. */
  lemma ProtectiveClosesOnly(t: ScalpTick)
    requires t.ticker.price != 0.0 && !t.p.closeLong && !t.p.closeShort && |t.h.closeOpposite| == 0
    requires !BarsMissing(t.bars) && |ProtectiveCloses(t)| > 0
    ensures OnTickSpec(t) == Some(TradeOrders([], ProtectiveCloses(t), []))
  {
  }

  /** An entry signal excludes the close signal of its side, and the two entry signals exclude each
      other, because the one-minute ratio cannot be both under 0.1 and over 0.9: the tick's
      "both signals" exit is never taken. */
  lemma SignalsExclusive(t: ScalpTick)
    requires |t.bars| >= 3
    ensures SignalsOf(t).openLong ==> !SignalsOf(t).closeLong
    ensures SignalsOf(t).openShort ==> !SignalsOf(t).closeShort
    ensures !(SignalsOf(t).openLong && SignalsOf(t).openShort)
  {
  }

  /** A batch has at most one entry, and only when it has no close intents and no cancels. */
  lemma AtMostOneEntry(t: ScalpTick)
    requires t.ticker.price != 0.0
    ensures OnTickSpec(t).Some? ==> |OnTickSpec(t).value.openOrders| <= 1
    ensures OnTickSpec(t).Some? && |OnTickSpec(t).value.openOrders| > 0 ==>
              OnTickSpec(t).value.closeOrders == [] && OnTickSpec(t).value.cancelOrders == []
  {
    if OnTickSpec(t).Some? && !t.p.closeLong && !t.p.closeShort && |t.h.closeOpposite| == 0 {
      SignalsExclusive(t);
    }
  }

  /** A BUY entry is made exactly when every earlier check passed, the long signal holds, the view
      allows long, and the nearest BUY is missing or at least the order gap above the entry price;
      it is a NEW LIMIT order at the lower ticker price. */
  lemma BuyEntryIff(t: ScalpTick)
    requires t.ticker.price != 0.0 && !t.p.closeLong && !t.p.closeShort && |t.h.closeOpposite| == 0
    requires !BarsMissing(t.bars) && |ProtectiveCloses(t)| == 0 && !MinuteBarsMissing(t.bars1m)
    ensures var opens := OnTickSpec(t).value.openOrders;
            (exists o :: o in opens && o.side == Buy) <==>
              SignalsOf(t).openLong && LongAllowed(t.p.view) && GapClear(t, Buy, t.h.lowerTicker)
    ensures var opens := OnTickSpec(t).value.openOrders;
            forall o :: o in opens && o.side == Buy ==>
              o == Entry(t, Buy, t.h.lowerTicker) && o.orderType == Limit && o.status == New
              && o.openPrice == t.h.lowerTicker
  {
    SignalsExclusive(t);
  }

  /** The SELL entry mirrors the BUY entry, with the nearest SELL at least the gap below. */
  lemma SellEntryIff(t: ScalpTick)
    requires t.ticker.price != 0.0 && !t.p.closeLong && !t.p.closeShort && |t.h.closeOpposite| == 0
    requires !BarsMissing(t.bars) && |ProtectiveCloses(t)| == 0 && !MinuteBarsMissing(t.bars1m)
    ensures var opens := OnTickSpec(t).value.openOrders;
            (exists o :: o in opens && o.side == Sell) <==>
              SignalsOf(t).openShort && ShortAllowed(t.p.view) && GapClear(t, Sell, t.h.upperTicker)
    ensures var opens := OnTickSpec(t).value.openOrders;
            forall o :: o in opens && o.side == Sell ==>
              o == Entry(t, Sell, t.h.upperTicker) && o.orderType == Limit && o.status == New
              && o.openPrice == t.h.upperTicker
  {
    SignalsExclusive(t);
  }

  /** An entry carries a position side only on the futures product: LONG for a BUY, SHORT for a
      SELL; on spot it has none. */
  lemma EntryPosSide(t: ScalpTick)
    requires t.ticker.price != 0.0
    ensures OnTickSpec(t).Some? ==>
              forall o :: o in OnTickSpec(t).value.openOrders ==>
                (t.p.product == Futures ==> o.posSide == (if o.side == Buy then Long else Short))
                && (t.p.product != Futures ==> o.posSide == NoPos)
  {
  }
}
