/** The stand-alone spot grid bot (robot/binance/spot/grid): start-up validation, the tick gate,
    and the two ways it works a batch. As a maker it opens LIMIT orders, syncs them, places one
    take-profit per filled parent while capping the venue's algo-order count, and closes a parent
    when its take-profit fills. As a taker it opens MARKET orders under the zone price and takes
    profit with MARKET orders at the best bid. A failed venue call ends the run. */
module SpotGrid {
  import opened Types
  import opened Util
  import opened Store
  import opened Gateway
  import opened GridRange

  // ---------------------------------------------------------------------------------------------
  // Configuration

  /** The configuration the loop reads. */
  datatype GridBot = GridBot(
    upperPrice: real,
    lowerPrice: real,
    startPrice: real,
    gridSize: real,
    baseQty: real,
    quoteQty: real,
    priceDigits: nat,
    qtyDigits: nat,
    orderType: OrderType,
    /** The bot, venue and symbol every query of the loop filters on. */
    query: Query)

  datatype ConfigError = BoundsInverted | GridTooSmall | NoQuantity

  /** Start-up validation: the first failing check, or nothing. */
  function ValidateConfig(c: GridBot): (r: Option<ConfigError>)
    ensures r == Some(BoundsInverted) <==> c.upperPrice <= c.lowerPrice
    ensures r == Some(GridTooSmall) <==> c.lowerPrice < c.upperPrice && c.gridSize < 2.0
    ensures r == Some(NoQuantity) <==>
              c.lowerPrice < c.upperPrice && c.gridSize >= 2.0 && c.baseQty == 0.0 && c.quoteQty == 0.0
  {
    if c.upperPrice <= c.lowerPrice then Some(BoundsInverted)
    else if c.gridSize < 2.0 then Some(GridTooSmall)
    else if c.baseQty == 0.0 && c.quoteQty == 0.0 then Some(NoQuantity)
    else None
  }

  /** A configuration that passes validation has a quantity and meets the grid arithmetic's
      demands: every price gets a zone, and the band holds at least two cells. */
  lemma ValidConfigAllowsGrid(c: GridBot, price: real)
    requires ValidateConfig(c).None?
    ensures c.baseQty != 0.0 || c.quoteQty != 0.0
    ensures c.lowerPrice < c.upperPrice && c.gridSize > 0.0
    ensures GetGridRange(price, c.lowerPrice, c.upperPrice, c.gridSize).width > 0.0
    ensures 2.0 * Width(c.lowerPrice, c.upperPrice, c.gridSize) <= c.upperPrice - c.lowerPrice
  {
    var w := Width(c.lowerPrice, c.upperPrice, c.gridSize);
    MulWeak(2.0, c.gridSize, w);
    calc {
      2.0 * w;
    <= c.gridSize * w;
    == w * c.gridSize;
    == c.upperPrice - c.lowerPrice;
    }
  }

  // ---------------------------------------------------------------------------------------------
  // The venue during one tick

  /** What the spot client answers during the tick. */
  datatype Placed = Placed(refId: string, status: Status, openPrice: real, openTime: int, qty: real, commission: real)

  datatype Venue = Venue(
    /** PlaceLimitOrder, PlaceStopOrder and PlaceMarketOrder: the venue's record, or a failure. */
    place: Order -> Option<Placed>,
    /** GetOrder by id; a missing id is a failure. */
    orders: map<string, Snapshot>,
    /** CancelOrder by id; a missing id is a failure. */
    cancels: map<string, Snapshot>,
    /** GetOrderBook: best asks and bids, best first. */
    book: Option<Book>)

  /** Everything a tick's loops read besides the table. `newId` is the identifier GenID hands out
      for an order about to be named. */
  datatype Env = Env(bot: GridBot, venue: Venue, newId: Order -> string, price: real, now: int)

  /** The table and whether a failed venue call (or a missing parent) ended the run. */
  datatype Run = Run(rows: seq<Order>, halted: bool)

  // ---------------------------------------------------------------------------------------------
  // The tick gate

  /** A tick is skipped when there is no ticker or its price is not positive, and, with a start
      price set, while the price is above it and the bot holds no active order. */
  predicate SkipTick(ticker: Option<Ticker>, bot: GridBot, rows: seq<Order>) {
    ticker.None? || ticker.value.price <= 0.0
    || (bot.startPrice > 0.0 && ticker.value.price > bot.startPrice && |GetActiveOrders(rows, bot.query)| == 0)
  }

  // ---------------------------------------------------------------------------------------------
  // Maker: opening LIMIT orders

  /** The LIMIT order as sent: a fresh id, and the quote amount's worth at the open price when that
      is more than the intent's quantity. */
  function LimitSized(env: Env, o: Order): (r: Order)
    requires o.openPrice != 0.0
    ensures r == o.(id := env.newId(o), qty := MaxReal(o.qty, NormalizeDouble(env.bot.quoteQty / o.openPrice, env.bot.qtyDigits)))
  {
    var o1 := o.(id := env.newId(o));
    var qty := NormalizeDouble(env.bot.quoteQty / o.openPrice, env.bot.qtyDigits);
    if qty > o1.qty then o1.(qty := qty) else o1
  }

  /** One open intent: sent, then recorded with the venue's id, status, price and time. */
  function OpenLimitStep(env: Env, run: Run, o: Order): Run
    requires o.openPrice != 0.0
  {
    if run.halted then run
    else
      var o1 := LimitSized(env, o);
      match env.venue.place(o1)
      case None => Run(run.rows, true)
      case Some(x) => Run(run.rows + [o1.(refId := x.refId, status := x.status, openPrice := x.openPrice, openTime := x.openTime)], false)
  }

  // ---------------------------------------------------------------------------------------------
  // Maker: syncing LIMIT orders and placing take-profits

  /** The venue's cap on algo orders. */
  const MaxNumAlgoOrders := 5

  datatype Cap = CapHalt | CapSkip | CapGo(rows: seq<Order>)

  /** The cap check before a take-profit: with two or more NEW take-profits, the first of them (the
      highest priced) is canceled, unless it is priced below the parent's target, in which case
      the parent waits. */
  function CapTP(env: Env, rows: seq<Order>, o: Order): (c: Cap)
    ensures c.CapGo? ==> SameIds(rows, c.rows) && |c.rows| == |rows|
  {
    var tps := GetNewTPOrders(rows, env.bot.query);
    if |tps| + 3 < MaxNumAlgoOrders then CapGo(rows)
    else
      var first := tps[0];
      if first.openPrice < o.tpPrice then CapSkip
      else if first.id !in env.venue.cancels then CapHalt
      else
        var c := env.venue.cancels[first.id];
        ReplaceSameIds(rows, first.(status := c.status, updateTime := c.updateTime));
        CapGo(Replace(rows, first.(status := c.status, updateTime := c.updateTime)))
  }

  datatype BookRead = NoPrices | Prices(stop: real, sell: real)

  /** The book read of the take-profit placement: the second ask as the stop price and the fourth
      as the sell price, or nothing when the book has fewer than four asks. */
  function TPRead(book: Option<Book>): (r: BookRead)
    ensures r.Prices? <==> book.Some? && |book.value.asks| >= 4
    ensures r.Prices? ==> r.stop == book.value.asks[1] && r.sell == book.value.asks[3]
  {
    if book.None? || |book.value.asks| < 4 then NoPrices else Prices(book.value.asks[1], book.value.asks[3])
  }

  /** The same read as the loop writes it: the guard only rules out an empty ask list, so a book
      of one to three asks reaches an index out of range (nothing here: the run panics). */
  function TPReadAsWritten(book: Option<Book>): (r: Option<BookRead>)
  {
    if book.None? || |book.value.asks| == 0 then Some(NoPrices)
    else if |book.value.asks| < 4 then None
    else Some(Prices(book.value.asks[1], book.value.asks[3]))
  }

  /** The written guard panics on a two-ask book; the read with the intended guard skips it, and
      the two agree on every book that has no asks or at least four. */
  lemma AsksGuardFinding(book: Option<Book>)
    ensures TPReadAsWritten(Some(Book([100.0, 101.0], [99.0]))).None?
    ensures TPRead(Some(Book([100.0, 101.0], [99.0]))) == NoPrices
    ensures book.None? || |book.value.asks| == 0 || |book.value.asks| >= 4 ==> TPReadAsWritten(book) == Some(TPRead(book))
    ensures TPReadAsWritten(book).None? <==> book.Some? && 0 < |book.value.asks| < 4
  {
  }

  /** The take-profit for a parent: the reversed side, the parent's quantity, pointing at the
      parent, at the book's prices. */
  function TPFor(env: Env, o: Order, stop: real, sell: real): (r: Order)
    ensures r.side == Reverse(o.side) && r.qty == o.qty && r.openOrderId == o.id
    ensures r.orderType == TP && r.status == New && r.stopPrice == stop && r.openPrice == sell
    ensures r.botId == o.botId && r.exchange == o.exchange && r.symbol == o.symbol
  {
    var base := ZeroOrder.(botId := o.botId, exchange := o.exchange, symbol := o.symbol, openOrderId := o.id,
                           qty := o.qty, side := Reverse(o.side), orderType := TP, status := New,
                           stopPrice := stop, openPrice := sell);
    base.(id := env.newId(base))
  }

  /** A parent that wants a take-profit: a target, not closed, and no take-profit row yet. */
  predicate WantsTP(rows: seq<Order>, o: Order) {
    o.tpPrice > 0.0 && o.closeOrderId == "" && GetTPOrder(rows, o.id).None?
  }

  /** The take-profit placement once the cap lets it through: at the book's prices, when the sell
      price reaches the parent's target. */
  function PlaceAtBook(env: Env, rows: seq<Order>, o: Order): Run {
    match TPRead(env.venue.book)
    case NoPrices => Run(rows, false)
    case Prices(stop, sell) =>
      if sell < o.tpPrice then Run(rows, false)
      else
        var tpo := TPFor(env, o, stop, sell);
        match env.venue.place(tpo)
        case None => Run(rows, true)
        case Some(x) => Run(rows + [tpo.(refId := x.refId, openTime := x.openTime)], false)
  }

  /** The take-profit placement for a synced parent. */
  function PlaceTP(env: Env, rows: seq<Order>, o: Order): Run {
    if !WantsTP(rows, o) then Run(rows, false)
    else
      match CapTP(env, rows, o)
      case CapHalt => Run(rows, true)
      case CapSkip => Run(rows, false)
      case CapGo(rows1) => PlaceAtBook(env, rows1, o)
  }

  /** A row brought in line with the venue's snapshot: its status and update time are copied when
      the status differs. */
  function Synced(o: Order, exo: Snapshot): (r: Order)
    ensures r.status == exo.status
    ensures r.id == o.id && r.openOrderId == o.openOrderId && r.openPrice == o.openPrice && r.tpPrice == o.tpPrice
    ensures r.closeOrderId == o.closeOrderId && r.qty == o.qty && r.side == o.side
    ensures o.status == exo.status ==> r == o
  {
    if o.status != exo.status then o.(status := exo.status, updateTime := exo.updateTime) else o
  }

  /** The table after the sync: the row is written only when its status changed. */
  function SyncedRows(rows: seq<Order>, o: Order, exo: Snapshot): (r: seq<Order>)
    ensures SameIds(rows, r) && |r| == |rows|
  {
    ReplaceSameIds(rows, Synced(o, exo));
    if o.status != exo.status then Replace(rows, Synced(o, exo)) else rows
  }

  /** One LIMIT row: still NEW at the venue, nothing; a changed status is stored; a canceled row
      stops there; otherwise the take-profit placement follows. */
  function SyncLimitStep(env: Env, run: Run, o: Order): Run {
    if run.halted then run
    else if o.id !in env.venue.orders then Run(run.rows, true)
    else
      var exo := env.venue.orders[o.id];
      if exo.status == New then run
      else if exo.status == Canceled then Run(SyncedRows(run.rows, o, exo), false)
      else PlaceTP(env, SyncedRows(run.rows, o, exo), Synced(o, exo))
  }

  // ---------------------------------------------------------------------------------------------
  // Maker: syncing take-profits and closing parents

  /** The parent closed by a take-profit: the take-profit's id and price, the close time, and the
      realised P/L (close - open) * qty less both commissions, rounded to the price digits. */
  function ClosedByTP(env: Env, oo: Order, t: Order, closeTime: int): (r: Order)
    ensures r.closeOrderId == t.id && r.closePrice == t.openPrice && r.closeTime == closeTime
    ensures r.pl == NormalizeDouble((t.openPrice - oo.openPrice) * t.qty - oo.commission - t.commission, env.bot.priceDigits)
    ensures r.id == oo.id && r.openPrice == oo.openPrice && r.qty == oo.qty && r.status == oo.status
  {
    oo.(closeOrderId := t.id, closePrice := t.openPrice, closeTime := closeTime,
        pl := NormalizeDouble((t.openPrice - oo.openPrice) * t.qty - oo.commission - t.commission, env.bot.priceDigits))
  }

  /** The pairing of a filled take-profit with its parent: a missing parent ends the run (the nil
      dereference); a parent not closed yet is closed when the price is above the take-profit's. */
  function CloseParent(env: Env, rows: seq<Order>, t: Order): Run {
    match GetOrderByID(rows, t.openOrderId)
    case None => Run(rows, true)
    case Some(oo) =>
      if oo.closeOrderId == "" && env.price > t.openPrice then Run(Replace(rows, ClosedByTP(env, oo, t, env.now)), false)
      else Run(rows, false)
  }

  /** One take-profit row: synced like a LIMIT row; when it is neither NEW nor canceled, its parent
      is paired with it. */
  function SyncTPStep(env: Env, run: Run, tpo: Order): Run {
    if run.halted then run
    else if tpo.id !in env.venue.orders then Run(run.rows, true)
    else
      var exo := env.venue.orders[tpo.id];
      if exo.status == New then run
      else if exo.status == Canceled then Run(SyncedRows(run.rows, tpo, exo), false)
      else CloseParent(env, SyncedRows(run.rows, tpo, exo), Synced(tpo, exo))
  }

  // ---------------------------------------------------------------------------------------------
  // Taker

  /** The MARKET order as sent: a fresh id, the quote amount's worth at the best ask when that is
      more, and the MARKET type. */
  function MarketSized(env: Env, o: Order, ask: real): (r: Order)
    requires ask != 0.0
    ensures r == o.(id := env.newId(o), qty := MaxReal(o.qty, NormalizeDouble(env.bot.quoteQty / ask, env.bot.qtyDigits)), orderType := Market)
  {
    var o1 := o.(id := env.newId(o));
    var qty := NormalizeDouble(env.bot.quoteQty / ask, env.bot.qtyDigits);
    var o2 := if qty > o1.qty then o1.(qty := qty) else o1;
    o2.(orderType := Market)
  }

  /** The tick as the loops see it: they read the quote amount from their own parameter record,
      which the bot builds without it, so they always see zero. */
  function LoopEnv(env: Env): (e: Env)
    ensures e.bot.quoteQty == 0.0 && e.bot.qtyDigits == env.bot.qtyDigits && e.newId == env.newId
  {
    env.(bot := env.bot.(quoteQty := 0.0))
  }

  /** As written, an opening order is sized from the loops' zero quote amount, so it carries the
      intent's own quantity whatever quote amount is configured. Sized from the configured amount,
      it is worth at least that amount. */
  lemma QuoteQtyFinding(env: Env, o: Order, ask: real)
    requires o.openPrice != 0.0 && ask != 0.0 && o.qty >= 0.0
    ensures LimitSized(LoopEnv(env), o).qty == o.qty
    ensures MarketSized(LoopEnv(env), o, ask).qty == o.qty
    ensures LimitSized(env, o).qty >= NormalizeDouble(env.bot.quoteQty / o.openPrice, env.bot.qtyDigits)
    ensures MarketSized(env, o, ask).qty >= NormalizeDouble(env.bot.quoteQty / ask, env.bot.qtyDigits)
  {
    WholeIsNormal(0, env.bot.qtyDigits);
    assert 0.0 / o.openPrice == 0.0 && 0.0 / ask == 0.0;
  }

  /** The input that shows it: no base quantity and a quote amount of 100 pass validation; at an
      open price of 10 with whole-unit quantities the loop sends a quantity of 0 where the
      configured amount asks for 10. */
  lemma QuoteQtyExample(env: Env, o: Order)
    requires env.bot.lowerPrice < env.bot.upperPrice && env.bot.gridSize >= 2.0
    requires env.bot.baseQty == 0.0 && env.bot.quoteQty == 100.0 && env.bot.qtyDigits == 0
    requires o.qty == env.bot.baseQty && o.openPrice == 10.0
    ensures ValidateConfig(env.bot).None?
    ensures LimitSized(LoopEnv(env), o).qty == 0.0
    ensures LimitSized(env, o).qty == 10.0
  {
    WholeIsNormal(0, 0);
    WholeIsNormal(10, 0);
    assert 0.0 / 10.0 == 0.0 && 100.0 / 10.0 == 10.0;
  }

  /** The best ask when it allows a market open for `o`: present, not zero, and not above the zone
      price. */
  predicate AskAllows(book: Option<Book>, o: Order) {
    book.Some? && |book.value.asks| > 0 && book.value.asks[0] <= o.zonePrice && book.value.asks[0] != 0.0
  }

  /** One open intent as a MARKET order, recorded with what the venue filled. */
  function OpenMarketStep(env: Env, run: Run, o: Order): Run {
    if run.halted || !AskAllows(env.venue.book, o) then run
    else
      var o1 := MarketSized(env, o, env.venue.book.value.asks[0]);
      match env.venue.place(o1)
      case None => Run(run.rows, true)
      case Some(x) =>
        Run(run.rows + [o1.(refId := x.refId, status := x.status, openTime := x.openTime, openPrice := x.openPrice,
                            qty := x.qty, commission := x.commission)], false)
  }

  /** The best bid when it allows a market take-profit for `o`: present, not zero, and at or above
      the target. */
  predicate BidAllows(book: Option<Book>, o: Order) {
    book.Some? && |book.value.bids| > 0 && o.tpPrice <= book.value.bids[0] && book.value.bids[0] != 0.0
  }

  /** The MARKET take-profit for a parent, as sent. */
  function MarketTPFor(env: Env, o: Order): (r: Order)
    ensures r.side == Reverse(o.side) && r.qty == o.qty && r.openOrderId == o.id
    ensures r.orderType == Market && r.status == New
  {
    var base := ZeroOrder.(botId := o.botId, exchange := o.exchange, symbol := o.symbol, openOrderId := o.id,
                           qty := o.qty, side := Reverse(o.side), status := New, orderType := Market);
    base.(id := env.newId(base))
  }

  /** The take-profit row as stored: typed TAKE_PROFIT, with what the venue filled. */
  function FilledTP(tpo: Order, x: Placed): Order {
    tpo.(orderType := TP, refId := x.refId, status := x.status, openTime := x.openTime, openPrice := x.openPrice,
         qty := x.qty, commission := x.commission)
  }

  /** The MARKET take-profit sent, stored, and the parent closed at its fill. */
  function TakeAtBid(env: Env, rows: seq<Order>, o: Order): Run {
    var tpo := MarketTPFor(env, o);
    match env.venue.place(tpo)
    case None => Run(rows, true)
    case Some(x) =>
      var t2 := FilledTP(tpo, x);
      Run(Replace(rows + [t2], ClosedByTP(env, o, t2, t2.openTime)), false)
  }

  /** One active row: with a target, no take-profit yet and a bid at or above the target, it is
      taken at the bid. */
  function MarketTPStep(env: Env, run: Run, o: Order): Run {
    if run.halted || !(o.tpPrice > 0.0 && GetTPOrder(run.rows, o.id).None?) || !BidAllows(env.venue.book, o) then run
    else TakeAtBid(env, run.rows, o)
  }

  // ---------------------------------------------------------------------------------------------
  // The loops as folds

  datatype Phase = OpenLimit | SyncLimit | SyncTP | OpenMarket | MarketTP

  /** Every LIMIT intent has a price (the quantity rule divides by it). */
  predicate Priced(orders: seq<Order>) {
    forall i :: 0 <= i < |orders| ==> orders[i].openPrice != 0.0
  }

  function Step(env: Env, ph: Phase, run: Run, o: Order): Run
    requires ph == OpenLimit ==> o.openPrice != 0.0
  {
    match ph
    case OpenLimit => OpenLimitStep(env, run, o)
    case SyncLimit => SyncLimitStep(env, run, o)
    case SyncTP => SyncTPStep(env, run, o)
    case OpenMarket => OpenMarketStep(env, run, o)
    case MarketTP => MarketTPStep(env, run, o)
  }

  /** A loop over `orders`, one step each, in order. */
  function Fold(env: Env, ph: Phase, run: Run, orders: seq<Order>): Run
    requires ph == OpenLimit ==> Priced(orders)
    decreases |orders|
  {
    if |orders| == 0 then run
    else Step(env, ph, Fold(env, ph, run, orders[..|orders| - 1]), orders[|orders| - 1])
  }

  /** Once the run has ended, the rest of a loop does nothing. */
  lemma {:induction false} FoldStaysHalted(env: Env, ph: Phase, run: Run, orders: seq<Order>, k: nat)
    requires ph == OpenLimit ==> Priced(orders)
    requires k <= |orders| && Fold(env, ph, run, orders[..k]).halted
    ensures Fold(env, ph, run, orders) == Fold(env, ph, run, orders[..k])
    decreases |orders|
  {
    if k < |orders| {
      var init := orders[..|orders| - 1];
      assert init[..k] == orders[..k];
      FoldStaysHalted(env, ph, run, init, k);
    } else {
      assert orders[..k] == orders;
    }
  }

  lemma FoldHalted(env: Env, ph: Phase, run: Run, orders: seq<Order>)
    requires ph == OpenLimit ==> Priced(orders)
    requires run.halted
    ensures Fold(env, ph, run, orders) == run
  {
    assert orders[..0] == [];
    FoldStaysHalted(env, ph, run, orders, 0);
  }

  /** placeAsLimit: open the intents, sync the LIMIT rows found then, sync the take-profit rows
      found after that. */
  function LimitSpec(env: Env, rows: seq<Order>, opens: seq<Order>): Run
    requires Priced(opens)
  {
    var r1 := Fold(env, OpenLimit, Run(rows, false), opens);
    var r2 := Fold(env, SyncLimit, r1, GetLimitOrders(r1.rows, env.bot.query));
    Fold(env, SyncTP, r2, GetTPOrders(r2.rows, env.bot.query))
  }

  /** placeAsMarket: open the intents, then take profit over the active rows found then. */
  function MarketSpec(env: Env, rows: seq<Order>, opens: seq<Order>): Run {
    var r1 := Fold(env, OpenMarket, Run(rows, false), opens);
    Fold(env, MarketTP, r1, GetActiveOrders(r1.rows, env.bot.query))
  }

  /** One tick: gated, then the batch the grid strategy gave (if any) worked by order type. */
  function TickSpec(bot: GridBot, venue: Venue, newId: Order -> string, now: int, rows: seq<Order>,
                    ticker: Option<Ticker>, batch: Option<TradeOrders>): Run
    requires batch.Some? && bot.orderType == Limit ==> Priced(batch.value.openOrders)
  {
    if SkipTick(ticker, bot, rows) || batch.None? then Run(rows, false)
    else
      var env := Env(bot, venue, newId, ticker.value.price, now);
      if bot.orderType == Limit then LimitSpec(env, rows, batch.value.openOrders)
      else if bot.orderType == Market then MarketSpec(env, rows, batch.value.openOrders)
      else Run(rows, false)
  }

  // ---------------------------------------------------------------------------------------------
  // The loops as written

  method OpenLimitOne(db: OrderStore, env: Env, o: Order) returns (halted: bool)
    requires o.openPrice != 0.0
    modifies db
    ensures Run(db.rows, halted) == OpenLimitStep(env, Run(old(db.rows), false), o)
  {
    var o1 := o.(id := env.newId(o));
    var qty := NormalizeDouble(env.bot.quoteQty / o.openPrice, env.bot.qtyDigits);
    if qty > o1.qty {
      o1 := o1.(qty := qty);
    }
    var exo := env.venue.place(o1);
    if exo.None? {
      return true;
    }
    o1 := o1.(refId := exo.value.refId, status := exo.value.status, openPrice := exo.value.openPrice,
              openTime := exo.value.openTime);
    db.CreateOrder(o1);
    return false;
  }

  /** The cap check as written: the first NEW take-profit is canceled at the venue and its row
      updated, or the parent is skipped, or the run ends. */
  method CapOne(db: OrderStore, env: Env, o: Order) returns (go: bool, halted: bool)
    modifies db
    ensures var c := CapTP(env, old(db.rows), o);
            (halted <==> c.CapHalt?) && (go <==> c.CapGo?) && (c.CapGo? ==> db.rows == c.rows)
    ensures !go ==> db.rows == old(db.rows)
  {
    var tpOrders := GetNewTPOrders(db.rows, env.bot.query);
    if |tpOrders| + 3 >= MaxNumAlgoOrders {
      var first := tpOrders[0];
      if first.openPrice < o.tpPrice {
        return false, false;
      }
      if first.id !in env.venue.cancels {
        return false, true;
      }
      var exo := env.venue.cancels[first.id];
      first := first.(status := exo.status, updateTime := exo.updateTime);
      db.UpdateOrder(first);
    }
    return true, false;
  }

  method PlaceAtBookOne(db: OrderStore, env: Env, o: Order) returns (halted: bool)
    modifies db
    ensures Run(db.rows, halted) == PlaceAtBook(env, old(db.rows), o)
  {
    var book := env.venue.book;
    if book.None? || |book.value.asks| < 4 {
      return false;
    }
    var stopPrice := book.value.asks[1];
    var sellPrice := book.value.asks[3];
    if sellPrice < o.tpPrice {
      return false;
    }
    var tpo := TPFor(env, o, stopPrice, sellPrice);
    var exo := env.venue.place(tpo);
    if exo.None? {
      return true;
    }
    tpo := tpo.(refId := exo.value.refId, openTime := exo.value.openTime);
    db.CreateOrder(tpo);
    return false;
  }

  method PlaceTPOne(db: OrderStore, env: Env, o: Order) returns (halted: bool)
    modifies db
    ensures Run(db.rows, halted) == PlaceTP(env, old(db.rows), o)
  {
    if !(o.tpPrice > 0.0 && o.closeOrderId == "" && GetTPOrder(db.rows, o.id).None?) {
      return false;
    }
    var go;
    go, halted := CapOne(db, env, o);
    if !go {
      return;
    }
    halted := PlaceAtBookOne(db, env, o);
  }

  /** The status sync shared by both sync loops. */
  method SyncStatusOne(db: OrderStore, o: Order, exo: Snapshot) returns (o1: Order)
    modifies db
    ensures o1 == Synced(o, exo) && db.rows == SyncedRows(old(db.rows), o, exo)
  {
    o1 := o;
    if o1.status != exo.status {
      o1 := o1.(status := exo.status, updateTime := exo.updateTime);
      db.UpdateOrder(o1);
    }
  }

  method SyncLimitOne(db: OrderStore, env: Env, o: Order) returns (halted: bool)
    modifies db
    ensures Run(db.rows, halted) == SyncLimitStep(env, Run(old(db.rows), false), o)
  {
    if o.id !in env.venue.orders {
      return true;
    }
    var exo := env.venue.orders[o.id];
    if exo.status == New {
      return false;
    }
    var o1 := SyncStatusOne(db, o, exo);
    if exo.status == Canceled {
      return false;
    }
    halted := PlaceTPOne(db, env, o1);
  }

  method CloseParentOne(db: OrderStore, env: Env, t: Order) returns (halted: bool)
    modifies db
    ensures Run(db.rows, halted) == CloseParent(env, old(db.rows), t)
  {
    var oo := GetOrderByID(db.rows, t.openOrderId);
    if oo.None? {
      return true;
    }
    if oo.value.closeOrderId == "" && env.price > t.openPrice {
      db.UpdateOrder(ClosedByTP(env, oo.value, t, env.now));
    }
    return false;
  }

  method SyncTPOne(db: OrderStore, env: Env, tpo: Order) returns (halted: bool)
    modifies db
    ensures Run(db.rows, halted) == SyncTPStep(env, Run(old(db.rows), false), tpo)
  {
    if tpo.id !in env.venue.orders {
      return true;
    }
    var exo := env.venue.orders[tpo.id];
    if exo.status == New {
      return false;
    }
    var t1 := SyncStatusOne(db, tpo, exo);
    if exo.status == Canceled {
      return false;
    }
    halted := CloseParentOne(db, env, t1);
  }

  method OpenMarketOne(db: OrderStore, env: Env, o: Order) returns (halted: bool)
    modifies db
    ensures Run(db.rows, halted) == OpenMarketStep(env, Run(old(db.rows), false), o)
  {
    var book := env.venue.book;
    if book.None? || |book.value.asks| == 0 {
      return false;
    }
    var buyPrice := book.value.asks[0];
    if buyPrice > o.zonePrice || buyPrice == 0.0 {
      return false;
    }
    var o1 := o.(id := env.newId(o));
    var qty := NormalizeDouble(env.bot.quoteQty / buyPrice, env.bot.qtyDigits);
    if qty > o1.qty {
      o1 := o1.(qty := qty);
    }
    o1 := o1.(orderType := Market);
    var exo := env.venue.place(o1);
    if exo.None? {
      return true;
    }
    o1 := o1.(refId := exo.value.refId, status := exo.value.status, openTime := exo.value.openTime,
              openPrice := exo.value.openPrice, qty := exo.value.qty, commission := exo.value.commission);
    db.CreateOrder(o1);
    return false;
  }

  method TakeAtBidOne(db: OrderStore, env: Env, o: Order) returns (halted: bool)
    modifies db
    ensures Run(db.rows, halted) == TakeAtBid(env, old(db.rows), o)
  {
    var tpo := MarketTPFor(env, o);
    var exo := env.venue.place(tpo);
    if exo.None? {
      return true;
    }
    tpo := FilledTP(tpo, exo.value);
    db.CreateOrder(tpo);
    db.UpdateOrder(ClosedByTP(env, o, tpo, tpo.openTime));
    return false;
  }

  method MarketTPOne(db: OrderStore, env: Env, o: Order) returns (halted: bool)
    modifies db
    ensures Run(db.rows, halted) == MarketTPStep(env, Run(old(db.rows), false), o)
  {
    if !(o.tpPrice > 0.0 && GetTPOrder(db.rows, o.id).None?) {
      return false;
    }
    var book := env.venue.book;
    if book.None? || |book.value.bids| == 0 {
      return false;
    }
    var sellPrice := book.value.bids[0];
    if o.tpPrice > sellPrice || sellPrice == 0.0 {
      return false;
    }
    halted := TakeAtBidOne(db, env, o);
  }

  method OpenLimitLoop(db: OrderStore, env: Env, orders: seq<Order>) returns (halted: bool)
    requires Priced(orders)
    modifies db
    ensures Run(db.rows, halted) == Fold(env, OpenLimit, Run(old(db.rows), false), orders)
  {
    var i := 0;
    while i < |orders|
      invariant 0 <= i <= |orders|
      invariant Run(db.rows, false) == Fold(env, OpenLimit, Run(old(db.rows), false), orders[..i])
    {
      assert orders[..i + 1][..i] == orders[..i];
      halted := OpenLimitOne(db, env, orders[i]);
      if halted {
        FoldStaysHalted(env, OpenLimit, Run(old(db.rows), false), orders, i + 1);
        return;
      }
      i := i + 1;
    }
    assert orders[..|orders|] == orders;
    return false;
  }

  method SyncLimitLoop(db: OrderStore, env: Env, orders: seq<Order>) returns (halted: bool)
    modifies db
    ensures Run(db.rows, halted) == Fold(env, SyncLimit, Run(old(db.rows), false), orders)
  {
    var i := 0;
    while i < |orders|
      invariant 0 <= i <= |orders|
      invariant Run(db.rows, false) == Fold(env, SyncLimit, Run(old(db.rows), false), orders[..i])
    {
      assert orders[..i + 1][..i] == orders[..i];
      halted := SyncLimitOne(db, env, orders[i]);
      if halted {
        FoldStaysHalted(env, SyncLimit, Run(old(db.rows), false), orders, i + 1);
        return;
      }
      i := i + 1;
    }
    assert orders[..|orders|] == orders;
    return false;
  }

  method SyncTPLoop(db: OrderStore, env: Env, orders: seq<Order>) returns (halted: bool)
    modifies db
    ensures Run(db.rows, halted) == Fold(env, SyncTP, Run(old(db.rows), false), orders)
  {
    var i := 0;
    while i < |orders|
      invariant 0 <= i <= |orders|
      invariant Run(db.rows, false) == Fold(env, SyncTP, Run(old(db.rows), false), orders[..i])
    {
      assert orders[..i + 1][..i] == orders[..i];
      halted := SyncTPOne(db, env, orders[i]);
      if halted {
        FoldStaysHalted(env, SyncTP, Run(old(db.rows), false), orders, i + 1);
        return;
      }
      i := i + 1;
    }
    assert orders[..|orders|] == orders;
    return false;
  }

  method OpenMarketLoop(db: OrderStore, env: Env, orders: seq<Order>) returns (halted: bool)
    modifies db
    ensures Run(db.rows, halted) == Fold(env, OpenMarket, Run(old(db.rows), false), orders)
  {
    var i := 0;
    while i < |orders|
      invariant 0 <= i <= |orders|
      invariant Run(db.rows, false) == Fold(env, OpenMarket, Run(old(db.rows), false), orders[..i])
    {
      assert orders[..i + 1][..i] == orders[..i];
      halted := OpenMarketOne(db, env, orders[i]);
      if halted {
        FoldStaysHalted(env, OpenMarket, Run(old(db.rows), false), orders, i + 1);
        return;
      }
      i := i + 1;
    }
    assert orders[..|orders|] == orders;
    return false;
  }

  method MarketTPLoop(db: OrderStore, env: Env, orders: seq<Order>) returns (halted: bool)
    modifies db
    ensures Run(db.rows, halted) == Fold(env, MarketTP, Run(old(db.rows), false), orders)
  {
    var i := 0;
    while i < |orders|
      invariant 0 <= i <= |orders|
      invariant Run(db.rows, false) == Fold(env, MarketTP, Run(old(db.rows), false), orders[..i])
    {
      assert orders[..i + 1][..i] == orders[..i];
      halted := MarketTPOne(db, env, orders[i]);
      if halted {
        FoldStaysHalted(env, MarketTP, Run(old(db.rows), false), orders, i + 1);
        return;
      }
      i := i + 1;
    }
    assert orders[..|orders|] == orders;
    return false;
  }

  /** placeAsLimit. */
  method PlaceAsLimit(db: OrderStore, env: Env, opens: seq<Order>) returns (halted: bool)
    requires Priced(opens)
    modifies db
    ensures Run(db.rows, halted) == LimitSpec(env, old(db.rows), opens)
  {
    ghost var start := db.rows;
    halted := OpenLimitLoop(db, env, opens);
    ghost var r1 := Run(db.rows, halted);
    if halted {
      FoldHalted(env, SyncLimit, r1, GetLimitOrders(r1.rows, env.bot.query));
      ghost var r2 := Fold(env, SyncLimit, r1, GetLimitOrders(r1.rows, env.bot.query));
      FoldHalted(env, SyncTP, r2, GetTPOrders(r2.rows, env.bot.query));
      return;
    }
    var limits := GetLimitOrders(db.rows, env.bot.query);
    halted := SyncLimitLoop(db, env, limits);
    ghost var r2 := Run(db.rows, halted);
    if halted {
      FoldHalted(env, SyncTP, r2, GetTPOrders(r2.rows, env.bot.query));
      return;
    }
    var tps := GetTPOrders(db.rows, env.bot.query);
    halted := SyncTPLoop(db, env, tps);
  }

  /** placeAsMarket. */
  method PlaceAsMarket(db: OrderStore, env: Env, opens: seq<Order>) returns (halted: bool)
    modifies db
    ensures Run(db.rows, halted) == MarketSpec(env, old(db.rows), opens)
  {
    halted := OpenMarketLoop(db, env, opens);
    ghost var r1 := Run(db.rows, halted);
    if halted {
      FoldHalted(env, MarketTP, r1, GetActiveOrders(r1.rows, env.bot.query));
      return;
    }
    var active := GetActiveOrders(db.rows, env.bot.query);
    halted := MarketTPLoop(db, env, active);
  }

  /** One pass of the tick loop. */
  method Tick(db: OrderStore, bot: GridBot, venue: Venue, newId: Order -> string, now: int,
              ticker: Option<Ticker>, batch: Option<TradeOrders>) returns (halted: bool)
    requires batch.Some? && bot.orderType == Limit ==> Priced(batch.value.openOrders)
    modifies db
    ensures Run(db.rows, halted) == TickSpec(bot, venue, newId, now, old(db.rows), ticker, batch)
  {
    if ticker.None? || ticker.value.price <= 0.0 {
      return false;
    }
    if bot.startPrice > 0.0 && ticker.value.price > bot.startPrice && |GetActiveOrders(db.rows, bot.query)| == 0 {
      return false;
    }
    if batch.None? {
      return false;
    }
    var env := Env(bot, venue, newId, ticker.value.price, now);
    if bot.orderType == Limit {
      halted := PlaceAsLimit(db, env, batch.value.openOrders);
    } else if bot.orderType == Market {
      halted := PlaceAsMarket(db, env, batch.value.openOrders);
    } else {
      halted := false;
    }
  }

  // ---------------------------------------------------------------------------------------------
  // Properties

  /** A skipped tick, or one without a batch, changes nothing; with an active order a positive
      price never skips. */
  lemma TickGate(bot: GridBot, venue: Venue, newId: Order -> string, now: int, rows: seq<Order>,
                 ticker: Option<Ticker>, batch: Option<TradeOrders>)
    requires batch.Some? && bot.orderType == Limit ==> Priced(batch.value.openOrders)
    ensures SkipTick(ticker, bot, rows) || batch.None? ==> TickSpec(bot, venue, newId, now, rows, ticker, batch) == Run(rows, false)
    ensures (ticker.Some? && ticker.value.price > 0.0 && exists o :: o in rows && SameBot(bot.query, o) && Active(o))
            ==> !SkipTick(ticker, bot, rows)
  {
    if ticker.Some? && ticker.value.price > 0.0 && (exists o :: o in rows && SameBot(bot.query, o) && Active(o)) {
      var o :| o in rows && SameBot(bot.query, o) && Active(o);
      assert o in GetActiveOrders(rows, bot.query);
    }
  }

  /** An opened LIMIT order is stored as the last row with a fresh id, the larger of the intent's
      quantity and the rounded quote amount's worth, and the venue's id, status, price and time;
      a refused one ends the run. */
  lemma OpenLimitRecords(env: Env, rows: seq<Order>, o: Order)
    requires o.openPrice != 0.0
    ensures var r := OpenLimitStep(env, Run(rows, false), o);
            var sent := o.(id := env.newId(o), qty := MaxReal(o.qty, NormalizeDouble(env.bot.quoteQty / o.openPrice, env.bot.qtyDigits)));
            (r.halted <==> env.venue.place(sent).None?)
            && (!r.halted ==>
                  var x := env.venue.place(sent).value;
                  r.rows == rows + [sent.(refId := x.refId, status := x.status, openPrice := x.openPrice, openTime := x.openTime)])
  {
  }

  /** The cap: with fewer than two NEW take-profits the table is untouched; otherwise the first of
      them is priced at least as high as every NEW take-profit, and it is canceled unless its price
      is below the parent's target, in which case the parent is skipped. */
  lemma CapCancelsHighest(env: Env, rows: seq<Order>, o: Order)
    ensures var tps := GetNewTPOrders(rows, env.bot.query);
            |tps| < 2 ==> CapTP(env, rows, o) == CapGo(rows)
    ensures var tps := GetNewTPOrders(rows, env.bot.query);
            |tps| >= 2 ==>
              tps[0] in rows && tps[0].orderType == TP && tps[0].status == New
              && (forall x :: x in rows && SameBot(env.bot.query, x) && x.orderType == TP && x.status == New
                    ==> x.openPrice <= tps[0].openPrice)
              && (tps[0].openPrice < o.tpPrice <==> CapTP(env, rows, o) == CapSkip)
              && (tps[0].openPrice >= o.tpPrice && tps[0].id in env.venue.cancels ==>
                    var c := env.venue.cancels[tps[0].id];
                    CapTP(env, rows, o) == CapGo(Replace(rows, tps[0].(status := c.status, updateTime := c.updateTime))))
  {
    var tps := GetNewTPOrders(rows, env.bot.query);
    if |tps| >= 2 {
      assert tps[0] in tps;
      forall x | x in rows && SameBot(env.bot.query, x) && x.orderType == TP && x.status == New
        ensures x.openPrice <= tps[0].openPrice
      {
        assert x in tps;
        var i :| 0 <= i < |tps| && tps[i] == x;
        if i > 0 {
          assert InOrder(tps[0], tps[i], OpenPrice, false);
        }
      }
    }
  }

  /** A take-profit is added exactly when the parent wants one, the cap lets it through, the
      book has four asks with the fourth at or above the target, and the venue accepts it; it is
      then the last row, on the reversed side, of the parent's quantity, pointing at the parent,
      with the second ask as stop price and the fourth as price. */
  lemma PlaceTPAdds(env: Env, rows: seq<Order>, o: Order)
    ensures var r := PlaceTP(env, rows, o);
            var c := CapTP(env, rows, o);
            var book := env.venue.book;
            |r.rows| == |rows| + 1 <==>
              WantsTP(rows, o) && c.CapGo? && book.Some? && |book.value.asks| >= 4 && book.value.asks[3] >= o.tpPrice
              && env.venue.place(TPFor(env, o, book.value.asks[1], book.value.asks[3])).Some?
    ensures var r := PlaceTP(env, rows, o);
            |r.rows| == |rows| + 1 ==>
              var x := r.rows[|rows|];
              x.orderType == TP && x.status == New && x.side == Reverse(o.side) && x.qty == o.qty
              && x.openOrderId == o.id && x.stopPrice == env.venue.book.value.asks[1]
              && x.openPrice == env.venue.book.value.asks[3] && x.openPrice >= o.tpPrice
    ensures var r := PlaceTP(env, rows, o);
            |r.rows| == |rows| || |r.rows| == |rows| + 1
  {
    var c := CapTP(env, rows, o);
    if WantsTP(rows, o) && c.CapGo? {
      PlaceAtBookAdds(env, c.rows, o);
    }
  }

  /** Past the cap, a take-profit is added exactly when the book has four asks with the fourth at
      or above the target and the venue accepts it; it is then appended as the last row. */
  lemma PlaceAtBookAdds(env: Env, rows: seq<Order>, o: Order)
    ensures var r := PlaceAtBook(env, rows, o);
            var book := env.venue.book;
            |r.rows| == |rows| + 1 <==>
              book.Some? && |book.value.asks| >= 4 && book.value.asks[3] >= o.tpPrice
              && env.venue.place(TPFor(env, o, book.value.asks[1], book.value.asks[3])).Some?
    ensures var r := PlaceAtBook(env, rows, o);
            |r.rows| == |rows| + 1 ==>
              var x := r.rows[|rows|];
              x.orderType == TP && x.status == New && x.side == Reverse(o.side) && x.qty == o.qty
              && x.openOrderId == o.id && x.stopPrice == env.venue.book.value.asks[1]
              && x.openPrice == env.venue.book.value.asks[3] && x.openPrice >= o.tpPrice
    ensures var r := PlaceAtBook(env, rows, o);
            r.rows == rows || (|r.rows| == |rows| + 1 && r.rows[..|rows|] == rows)
  {
  }

  /** The take-profit sync closes a parent only when the parent is not closed yet and the price is
      above the take-profit's; the closed parent carries the take-profit's id and price, the tick's
      time and the P/L rule. */
  lemma SyncTPClosesParent(env: Env, rows: seq<Order>, tpo: Order, oo: Order)
    requires tpo.id in env.venue.orders
    requires env.venue.orders[tpo.id].status != New && env.venue.orders[tpo.id].status != Canceled
    requires tpo.id != tpo.openOrderId
    requires GetOrderByID(rows, tpo.openOrderId) == Some(oo)
    ensures var t1 := Synced(tpo, env.venue.orders[tpo.id]);
            var r := SyncTPStep(env, Run(rows, false), tpo);
            !r.halted
            && (oo.closeOrderId == "" && env.price > tpo.openPrice ==>
                  GetOrderByID(r.rows, oo.id) == Some(ClosedByTP(env, oo, t1, env.now)))
            && (oo.closeOrderId != "" || env.price <= tpo.openPrice ==> GetOrderByID(r.rows, oo.id) == Some(oo))
  {
    var exo := env.venue.orders[tpo.id];
    var t1 := Synced(tpo, exo);
    if tpo.status != exo.status {
      GetAfterReplaceOther(rows, t1, tpo.openOrderId);
    }
    CloseParentCloses(env, SyncedRows(rows, tpo, exo), t1, oo);
  }

  /** The pairing closes a found parent exactly when it is not closed yet and the price is above
      the take-profit's. */
  lemma CloseParentCloses(env: Env, rows: seq<Order>, t: Order, oo: Order)
    requires GetOrderByID(rows, t.openOrderId) == Some(oo)
    ensures var r := CloseParent(env, rows, t);
            !r.halted
            && (oo.closeOrderId == "" && env.price > t.openPrice ==> GetOrderByID(r.rows, oo.id) == Some(ClosedByTP(env, oo, t, env.now)))
            && (oo.closeOrderId != "" || env.price <= t.openPrice ==> r.rows == rows && GetOrderByID(r.rows, oo.id) == Some(oo))
  {
    if oo.closeOrderId == "" && env.price > t.openPrice {
      ReplaceThenGet(rows, ClosedByTP(env, oo, t, env.now));
    }
  }

  /** A parent is closed once: after a take-profit with an id closed it, no take-profit sync changes
      it again. */
  lemma ParentClosedOnce(env: Env, rows: seq<Order>, tpo: Order, oo: Order, tpo2: Order)
    requires tpo.id in env.venue.orders
    requires env.venue.orders[tpo.id].status != New && env.venue.orders[tpo.id].status != Canceled
    requires tpo.id != tpo.openOrderId && tpo.id != ""
    requires GetOrderByID(rows, tpo.openOrderId) == Some(oo)
    requires oo.closeOrderId == "" && env.price > tpo.openPrice
    requires tpo2.openOrderId == oo.id && tpo2.id != oo.id
    ensures var r := SyncTPStep(env, Run(rows, false), tpo);
            var closed := GetOrderByID(r.rows, oo.id);
            closed.Some? && closed.value.closeOrderId == tpo.id
            && var r2 := SyncTPStep(env, r, tpo2);
               r2.halted || GetOrderByID(r2.rows, oo.id) == closed
  {
    SyncTPClosesParent(env, rows, tpo, oo);
    var r := SyncTPStep(env, Run(rows, false), tpo);
    var closed := GetOrderByID(r.rows, oo.id);
    if tpo2.id in env.venue.orders {
      var exo := env.venue.orders[tpo2.id];
      if exo.status != New && exo.status != Canceled {
        SyncTPClosesParent(env, r.rows, tpo2, closed.value);
      } else if tpo2.status != exo.status {
        GetAfterReplaceOther(r.rows, tpo2.(status := exo.status, updateTime := exo.updateTime), oo.id);
      }
    }
  }

  /** A market open adds a row only when the best ask allows it and the venue fills it; the row is
      then a MARKET order with the venue's quantity and commission. */
  lemma MarketOpenGate(env: Env, rows: seq<Order>, o: Order)
    ensures var r := OpenMarketStep(env, Run(rows, false), o);
            !AskAllows(env.venue.book, o) ==> r == Run(rows, false)
    ensures var r := OpenMarketStep(env, Run(rows, false), o);
            !r.halted && r.rows != rows ==>
              AskAllows(env.venue.book, o) && |r.rows| == |rows| + 1 && r.rows[..|rows|] == rows
              && var sent := MarketSized(env, o, env.venue.book.value.asks[0]);
                 var x := env.venue.place(sent).value;
                 r.rows[|rows|].orderType == Market && r.rows[|rows|].qty == x.qty
                 && r.rows[|rows|].commission == x.commission && r.rows[|rows|].id == env.newId(o)
  {
  }

  /** A market take-profit fires only for a parent with a target and no take-profit yet, when the
      best bid is not zero and at or above the target; the parent is then closed at the fill with
      the P/L rule. */
  lemma MarketTPGate(env: Env, rows: seq<Order>, o: Order)
    requires o.id != ""
    ensures var r := MarketTPStep(env, Run(rows, false), o);
            !(o.tpPrice > 0.0 && GetTPOrder(rows, o.id).None? && BidAllows(env.venue.book, o)) ==> r == Run(rows, false)
    ensures var r := MarketTPStep(env, Run(rows, false), o);
            !r.halted && r.rows != rows ==>
              BidAllows(env.venue.book, o) && o.tpPrice > 0.0
              && var t2 := FilledTP(MarketTPFor(env, o), env.venue.place(MarketTPFor(env, o)).value);
                 r.rows == Replace(rows + [t2], ClosedByTP(env, o, t2, t2.openTime))
                 && t2.orderType == TP && t2.openOrderId == o.id && t2.side == Reverse(o.side)
  {
  }

  /** Every step keeps the rows it found, in place and with their ids, and only adds rows. */
  lemma StepSameIds(env: Env, ph: Phase, run: Run, o: Order)
    requires ph == OpenLimit ==> o.openPrice != 0.0
    ensures SameIds(run.rows, Step(env, ph, run, o).rows)
  {
    match ph
    case OpenLimit =>
    case SyncLimit => SyncLimitSameIds(env, run, o);
    case SyncTP => SyncTPSameIds(env, run, o);
    case OpenMarket =>
    case MarketTP => TakeAtBidSameIds(env, run.rows, o);
  }

  lemma SyncLimitSameIds(env: Env, run: Run, o: Order)
    ensures SameIds(run.rows, SyncLimitStep(env, run, o).rows)
  {
    if !run.halted && o.id in env.venue.orders {
      var exo := env.venue.orders[o.id];
      var rows1 := SyncedRows(run.rows, o, exo);
      PlaceTPSameIds(env, rows1, Synced(o, exo));
      SameIdsTrans(run.rows, rows1, PlaceTP(env, rows1, Synced(o, exo)).rows);
    }
  }

  lemma SyncTPSameIds(env: Env, run: Run, o: Order)
    ensures SameIds(run.rows, SyncTPStep(env, run, o).rows)
  {
    if !run.halted && o.id in env.venue.orders {
      var exo := env.venue.orders[o.id];
      var rows1 := SyncedRows(run.rows, o, exo);
      CloseParentSameIds(env, rows1, Synced(o, exo));
      SameIdsTrans(run.rows, rows1, CloseParent(env, rows1, Synced(o, exo)).rows);
    }
  }

  lemma PlaceTPSameIds(env: Env, rows: seq<Order>, o: Order)
    ensures SameIds(rows, PlaceTP(env, rows, o).rows)
  {
    if WantsTP(rows, o) {
      match CapTP(env, rows, o)
      case CapHalt =>
      case CapSkip =>
      case CapGo(rows1) =>
        PlaceAtBookSameIds(env, rows1, o);
        SameIdsTrans(rows, rows1, PlaceAtBook(env, rows1, o).rows);
    }
  }

  lemma PlaceAtBookSameIds(env: Env, rows: seq<Order>, o: Order)
    ensures SameIds(rows, PlaceAtBook(env, rows, o).rows)
  {
    var r := PlaceAtBook(env, rows, o).rows;
    if r != rows {
      var x :| r == rows + [x];
      assert forall i :: 0 <= i < |rows| ==> r[i] == rows[i];
    }
  }

  lemma CloseParentSameIds(env: Env, rows: seq<Order>, t: Order)
    ensures SameIds(rows, CloseParent(env, rows, t).rows)
  {
    match GetOrderByID(rows, t.openOrderId)
    case None =>
    case Some(oo) => ReplaceSameIds(rows, ClosedByTP(env, oo, t, env.now));
  }

  lemma TakeAtBidSameIds(env: Env, rows: seq<Order>, o: Order)
    ensures SameIds(rows, TakeAtBid(env, rows, o).rows)
  {
    var tpo := MarketTPFor(env, o);
    if env.venue.place(tpo).Some? {
      var t2 := FilledTP(tpo, env.venue.place(tpo).value);
      ReplaceSameIds(rows + [t2], ClosedByTP(env, o, t2, t2.openTime));
      SameIdsTrans(rows, rows + [t2], Replace(rows + [t2], ClosedByTP(env, o, t2, t2.openTime)));
    }
  }

  /** A whole loop keeps the rows it found, in place and with their ids. */
  lemma {:induction false} FoldSameIds(env: Env, ph: Phase, run: Run, orders: seq<Order>)
    requires ph == OpenLimit ==> Priced(orders)
    ensures SameIds(run.rows, Fold(env, ph, run, orders).rows)
    decreases |orders|
  {
    if |orders| > 0 {
      var init := orders[..|orders| - 1];
      FoldSameIds(env, ph, run, init);
      var mid := Fold(env, ph, run, init);
      StepSameIds(env, ph, mid, orders[|orders| - 1]);
      SameIdsTrans(run.rows, mid.rows, Fold(env, ph, run, orders).rows);
    }
  }

  /** A tick never deletes a row or changes a row's id: the table only grows and is updated in
      place. */
  lemma TickSameIds(bot: GridBot, venue: Venue, newId: Order -> string, now: int, rows: seq<Order>,
                    ticker: Option<Ticker>, batch: Option<TradeOrders>)
    requires batch.Some? && bot.orderType == Limit ==> Priced(batch.value.openOrders)
    ensures SameIds(rows, TickSpec(bot, venue, newId, now, rows, ticker, batch).rows)
  {
    if !SkipTick(ticker, bot, rows) && batch.Some? {
      var env := Env(bot, venue, newId, ticker.value.price, now);
      var opens := batch.value.openOrders;
      if bot.orderType == Limit {
        var r1 := Fold(env, OpenLimit, Run(rows, false), opens);
        var r2 := Fold(env, SyncLimit, r1, GetLimitOrders(r1.rows, env.bot.query));
        FoldSameIds(env, OpenLimit, Run(rows, false), opens);
        FoldSameIds(env, SyncLimit, r1, GetLimitOrders(r1.rows, env.bot.query));
        FoldSameIds(env, SyncTP, r2, GetTPOrders(r2.rows, env.bot.query));
        SameIdsTrans(rows, r1.rows, r2.rows);
        SameIdsTrans(rows, r2.rows, LimitSpec(env, rows, opens).rows);
      } else if bot.orderType == Market {
        var r1 := Fold(env, OpenMarket, Run(rows, false), opens);
        FoldSameIds(env, OpenMarket, Run(rows, false), opens);
        FoldSameIds(env, MarketTP, r1, GetActiveOrders(r1.rows, env.bot.query));
        SameIdsTrans(rows, r1.rows, MarketSpec(env, rows, opens).rows);
      }
    }
  }
}
