/** The order reconciliation engine (package robot): each tick it brings the locally recorded
    orders in line with the venue, pairs filled protective orders with the positions they close,
    and then executes the strategy's batch of cancels, protective orders and opens. The order
    table is an `OrderStore`; the venue is a fixed `Exchange` answer for the tick; the clock is
    read once per tick as `now`. */
module Robot {
  import opened Types
  import opened Util
  import opened Store
  import opened Gateway

  /** The bot parameters the engine reads. */
  datatype Config = Config(
    orderType: OrderType,
    product: Product,
    /** Seconds after which a still-NEW order is canceled; 0 or less disables the timeout. */
    timeSecCancel: int,
    priceDigits: int,
    quoteQty: real,
    qtyDigits: int,
    /** The bot's identity used by the store queries. */
    query: Query)

  // ---------------------------------------------------------------------------------------------
  // syncStatus

  /** What one status sync does: the table afterwards, whether the fill was confirmed by the
      trade list, and the engine's own (updated) copy of the order. */
  datatype SyncOutcome = SyncOutcome(rows: seq<Order>, traded: bool, synced: Order)

  /** The fill is confirmed: the order is open, FILLED, and its venue id is in the trade list. */
  predicate Confirmed(o: Order, trades: seq<Trade>) {
    o.closeTime == 0 && o.status == Filled && exists i :: 0 <= i < |trades| && trades[i].refId == o.refId
  }

  /** The scan of the recent trades at the end of syncStatus. */
  method IsTraded(o: Order, trades: seq<Trade>) returns (b: bool)
    ensures b <==> Confirmed(o, trades)
  {
    var i := 0;
    while i < |trades|
      invariant 0 <= i <= |trades|
      invariant forall j :: 0 <= j < i ==> !(trades[j].refId == o.refId && o.closeTime == 0 && o.status == Filled)
    {
      if o.refId == trades[i].refId && o.closeTime == 0 && o.status == Filled {
        return true;
      }
      i := i + 1;
    }
    return false;
  }

  /** A NEW order is stale once more whole seconds than the timeout have passed since it opened. */
  predicate TimedOut(cfg: Config, o: Order, now: int) {
    cfg.timeSecCancel > 0 && TruncDiv(now - o.openTime, 1000) > cfg.timeSecCancel
  }

  /** The local order after taking over a venue status that differs from its own: the status and
      update time are copied, a canceled-like status closes the order, and a fill records the
      commission when the venue reports one. */
  function Adopt(o: Order, s: Snapshot, ex: Exchange, now: int): (r: Order)
    ensures r.status == s.status && r.updateTime == s.updateTime
    ensures r.closeTime == (if IsCanceledLike(s.status) then now else o.closeTime)
    ensures s.status == Filled && GetCommission(ex, o.refId).Some? ==>
              r.commission == GetCommission(ex, o.refId).value
    ensures !(s.status == Filled && GetCommission(ex, o.refId).Some?) ==> r.commission == o.commission
    ensures r.(status := o.status, updateTime := o.updateTime, closeTime := o.closeTime, commission := o.commission) == o
  {
    var c := GetCommission(ex, o.refId);
    o.(status := s.status,
       updateTime := s.updateTime,
       closeTime := if IsCanceledLike(s.status) then now else o.closeTime,
       commission := if s.status == Filled && c.Some? then c.value else o.commission)
  }

  /** The order as the engine records it after a successful timeout cancel. */
  function CanceledCopy(o: Order, c: Snapshot, now: int): Order {
    o.(status := c.status, updateTime := c.updateTime, closeTime := now)
  }

  /** syncStatus as a function of the table, the order, the venue and the clock. */
  function SyncSpec(rows: seq<Order>, o: Order, ex: Exchange, cfg: Config, now: int): SyncOutcome {
    match GetOrder(ex, o)
    case None => SyncOutcome(rows, false, o)
    case Some(s) =>
      if s.status == New then
        if TimedOut(cfg, o, now) then
          match CancelOrder(ex, o, now)
          case None => SyncOutcome(rows, false, o)
          case Some(c) => SyncOutcome(Replace(rows, CanceledCopy(o, c, now)), false, CanceledCopy(o, c, now))
        else SyncOutcome(rows, false, o)
      else if o.status != s.status then
        var o1 := Adopt(o, s, ex, now);
        SyncOutcome(Replace(rows, o1), Confirmed(o1, ex.tradeList), o1)
      else SyncOutcome(rows, Confirmed(o, ex.tradeList), o)
  }

  /** syncStatus: reconciles one order with the venue and reports whether its fill is confirmed. */
  method SyncStatus(db: OrderStore, o: Order, ex: Exchange, cfg: Config, now: int)
    returns (traded: bool, synced: Order)
    modifies db
    ensures SyncOutcome(db.rows, traded, synced) == SyncSpec(old(db.rows), o, ex, cfg, now)
  {
    synced := o;
    var exo := GetOrder(ex, o);
    if exo.None? {
      return false, synced;
    }
    var s := exo.value;
    if s.status == New {
      if cfg.timeSecCancel > 0 && TruncDiv(now - o.openTime, 1000) > cfg.timeSecCancel {
        var c := CancelOrder(ex, o, now);
        if c.None? {
          return false, synced;
        }
        synced := synced.(status := c.value.status, updateTime := c.value.updateTime, closeTime := now);
        db.UpdateOrder(synced);
      }
      return false, synced;
    }
    if synced.status != s.status {
      synced := synced.(status := s.status, updateTime := s.updateTime);
      if IsCanceledLike(s.status) {
        synced := synced.(closeTime := now);
      }
      if s.status == Filled {
        var commission := GetCommission(ex, o.refId);
        if commission.Some? {
          synced := synced.(commission := commission.value);
        }
      }
      db.UpdateOrder(synced);
    }
    traded := IsTraded(synced, ex.tradeList);
  }

  /** The sync only ever touches the order's own row, and the engine's copy keeps its identity. */
  lemma SyncTouchesOwnRow(rows: seq<Order>, o: Order, ex: Exchange, cfg: Config, now: int)
    ensures var r := SyncSpec(rows, o, ex, cfg, now);
            r.synced.id == o.id && r.synced.refId == o.refId && r.synced.openTime == o.openTime
    ensures var r := SyncSpec(rows, o, ex, cfg, now);
            r.rows == rows || r.rows == Replace(rows, r.synced)
  {
  }

  /** The sync writes the table only when the venue knows the order and either a timed-out NEW
      order is cancelled or the venue's status differs from the local one: a failed lookup, a NEW
      order still in time or not cancelled, and an unchanged status other than NEW all leave the
      table as it was. */
  lemma SyncWritesOnlyOnChange(rows: seq<Order>, o: Order, ex: Exchange, cfg: Config, now: int)
    ensures o.id !in ex.orders ==> SyncSpec(rows, o, ex, cfg, now).rows == rows
    ensures o.id in ex.orders && ex.orders[o.id].status == New && !(TimedOut(cfg, o, now) && o.id in ex.cancelable) ==>
              SyncSpec(rows, o, ex, cfg, now).rows == rows
    ensures o.id in ex.orders && ex.orders[o.id].status != New && ex.orders[o.id].status == o.status ==>
              SyncSpec(rows, o, ex, cfg, now).rows == rows
    ensures SyncSpec(rows, o, ex, cfg, now).rows != rows ==>
              o.id in ex.orders
                && ((ex.orders[o.id].status == New && TimedOut(cfg, o, now) && o.id in ex.cancelable)
                    || (ex.orders[o.id].status != New && ex.orders[o.id].status != o.status))
  {
  }

  /** A fill is reported only when the venue knows the order, no longer calls it NEW, and the
      updated copy is an open FILLED order found in the trade list. */
  lemma SyncTradedIff(rows: seq<Order>, o: Order, ex: Exchange, cfg: Config, now: int)
    ensures var r := SyncSpec(rows, o, ex, cfg, now);
            r.traded <==> o.id in ex.orders && ex.orders[o.id].status != New && Confirmed(r.synced, ex.tradeList)
  {
  }

  /** A NEW order past its timeout that the venue agrees to cancel is recorded CANCELED and closed
      now, and is never reported traded. */
  lemma SyncCancelsStale(rows: seq<Order>, o: Order, ex: Exchange, cfg: Config, now: int)
    requires o.id != "" && exists x :: x in rows && x.id == o.id
    requires o.id in ex.orders && ex.orders[o.id].status == New
    requires TimedOut(cfg, o, now) && o.id in ex.cancelable
    ensures var r := SyncSpec(rows, o, ex, cfg, now);
            !r.traded && r.synced.status == Canceled && r.synced.closeTime == now && r.synced.updateTime == now
    ensures GetOrderByID(SyncSpec(rows, o, ex, cfg, now).rows, o.id) == Some(SyncSpec(rows, o, ex, cfg, now).synced)
  {
    var c := CancelOrder(ex, o, now).value;
    ReplaceThenGet(rows, CanceledCopy(o, c, now));
  }

  /** A venue status other than NEW that differs from the local one is taken over, and the table
      row then holds the updated copy. */
  lemma SyncAdoptsStatus(rows: seq<Order>, o: Order, ex: Exchange, cfg: Config, now: int)
    requires o.id != "" && exists x :: x in rows && x.id == o.id
    requires o.id in ex.orders && ex.orders[o.id].status != New && ex.orders[o.id].status != o.status
    ensures var r := SyncSpec(rows, o, ex, cfg, now);
            r.synced.status == ex.orders[o.id].status && r.synced.updateTime == ex.orders[o.id].updateTime
    ensures var r := SyncSpec(rows, o, ex, cfg, now);
            IsCanceledLike(r.synced.status) ==> r.synced.closeTime == now && !r.traded
    ensures GetOrderByID(SyncSpec(rows, o, ex, cfg, now).rows, o.id) == Some(SyncSpec(rows, o, ex, cfg, now).synced)
  {
    ReplaceThenGet(rows, Adopt(o, ex.orders[o.id], ex, now));
  }

  /** A second sync in the same tick, of the engine's updated copy against the updated table,
      changes nothing and reports the same answer. */
  lemma SyncIdempotent(rows: seq<Order>, o: Order, ex: Exchange, cfg: Config, now: int)
    ensures var r := SyncSpec(rows, o, ex, cfg, now);
            SyncSpec(r.rows, r.synced, ex, cfg, now) == r
  {
    var r := SyncSpec(rows, o, ex, cfg, now);
    if r.rows != rows {
      ReplaceIdempotent(rows, r.synced);
    }
  }

  // ---------------------------------------------------------------------------------------------
  // syncSLLong, syncSLShort, syncTPLong, syncTPShort

  /** Which way the closed position was held: the P/L of a long is close minus open. */
  datatype Direction = LongSide | ShortSide

  /** The realized P/L of `parent` closed at the protective order's price, net of both
      commissions. */
  function RealizedPL(dir: Direction, parent: Order, prot: Order): (pl: real)
    ensures dir == LongSide ==>
              pl + parent.commission + prot.commission == (prot.openPrice - parent.openPrice) * prot.qty
    ensures dir == ShortSide ==>
              pl + parent.commission + prot.commission == (parent.openPrice - prot.openPrice) * prot.qty
  {
    match dir
    case LongSide => (prot.openPrice - parent.openPrice) * prot.qty - parent.commission - prot.commission
    case ShortSide => (parent.openPrice - prot.openPrice) * prot.qty - parent.commission - prot.commission
  }

  /** The position row after its protective order filled. */
  function ClosedParent(parent: Order, prot: Order, dir: Direction, digits: int, now: int): Order {
    parent.(closeOrderId := prot.id, closePrice := prot.openPrice, closeTime := now,
            pl := NormalizeDouble(RealizedPL(dir, parent, prot), digits))
  }

  /** The pairing step as a function of the table: close the parent position (when it exists) and
      then the protective order, both at `now`. */
  function PairSpec(rows: seq<Order>, prot: Order, dir: Direction, digits: int, now: int): seq<Order> {
    match GetOrderByID(rows, prot.openOrderId)
    case None => Replace(rows, prot.(closeTime := now))
    case Some(parent) => Replace(Replace(rows, ClosedParent(parent, prot, dir, digits, now)), prot.(closeTime := now))
  }

  /** syncSLLong, syncSLShort, syncTPLong and syncTPShort: the four differ only in `dir`. */
  method ClosePosition(db: OrderStore, prot: Order, dir: Direction, digits: int, now: int)
    modifies db
    ensures db.rows == PairSpec(old(db.rows), prot, dir, digits, now)
  {
    var o := GetOrderByID(db.rows, prot.openOrderId);
    if o.None? {
      db.UpdateOrder(prot.(closeTime := now));
      return;
    }
    var parent := o.value.(closeOrderId := prot.id, closePrice := prot.openPrice, closeTime := now);
    parent := parent.(pl := NormalizeDouble(RealizedPL(dir, o.value, prot), digits));
    db.UpdateOrder(parent);
    db.UpdateOrder(prot.(closeTime := parent.closeTime));
  }

  /** A long bought at 100 and closed at 110 for one unit, commission-free, made 10; the same
      prices on a short lost 10. */
  lemma PLExample(parent: Order, prot: Order, now: int)
    requires parent.openPrice == 100.0 && parent.commission == 0.0
    requires prot.openPrice == 110.0 && prot.qty == 1.0 && prot.commission == 0.0
    ensures ClosedParent(parent, prot, LongSide, 2, now).pl == 10.0
    ensures ClosedParent(parent, prot, ShortSide, 2, now).pl == -10.0
  {
    WholeIsNormal(10, 2);
    WholeIsNormal(-10, 2);
  }

  /** The P/L is recorded rounded to the price digits, within half a price step of the exact
      value. */
  lemma PLRounded(parent: Order, prot: Order, dir: Direction, digits: int, now: int)
    ensures var pl := ClosedParent(parent, prot, dir, digits, now).pl;
            OnGrid(pl, Pow10(digits)) && RealizedPL(dir, parent, prot) - 0.5 / Pow10(digits) <= pl
    ensures var pl := ClosedParent(parent, prot, dir, digits, now).pl;
            pl <= RealizedPL(dir, parent, prot) + 0.5 / Pow10(digits)
  {
  }

  /** Without a parent position, only the protective order is closed. */
  lemma PairWithoutParent(rows: seq<Order>, prot: Order, dir: Direction, digits: int, now: int)
    requires GetOrderByID(rows, prot.openOrderId).None?
    requires prot.id != "" && exists x :: x in rows && x.id == prot.id
    ensures GetOrderByID(PairSpec(rows, prot, dir, digits, now), prot.id) == Some(prot.(closeTime := now))
    ensures forall i :: 0 <= i < |rows| && rows[i].id != prot.id ==> PairSpec(rows, prot, dir, digits, now)[i] == rows[i]
  {
    ReplaceThenGet(rows, prot.(closeTime := now));
  }

  /** With a parent position, both rows end closed at the same time: the parent records the
      protective order as its closing order, its price as the close price and the rounded P/L. */
  lemma PairClosesBoth(rows: seq<Order>, prot: Order, dir: Direction, digits: int, now: int)
    requires GetOrderByID(rows, prot.openOrderId).Some?
    requires prot.id != prot.openOrderId
    requires prot.id != "" && exists x :: x in rows && x.id == prot.id
    ensures var after := PairSpec(rows, prot, dir, digits, now);
            var parent := GetOrderByID(rows, prot.openOrderId).value;
            GetOrderByID(after, prot.openOrderId) == Some(ClosedParent(parent, prot, dir, digits, now))
    ensures GetOrderByID(PairSpec(rows, prot, dir, digits, now), prot.id) == Some(prot.(closeTime := now))
    ensures var p := GetOrderByID(PairSpec(rows, prot, dir, digits, now), prot.openOrderId).value;
            p.closeOrderId == prot.id && p.closePrice == prot.openPrice && p.closeTime == now
  {
    var parent := GetOrderByID(rows, prot.openOrderId).value;
    var p1 := ClosedParent(parent, prot, dir, digits, now);
    var mid := Replace(rows, p1);
    ReplaceThenGet(rows, p1);
    GetAfterReplaceOther(mid, prot.(closeTime := now), prot.openOrderId);
    var x :| x in rows && x.id == prot.id;
    var i :| 0 <= i < |rows| && rows[i] == x;
    assert mid[i].id == prot.id;
    ReplaceThenGet(mid, prot.(closeTime := now));
  }

  /** Pairing changes no row other than the protective order and its parent. */
  lemma PairKeepsOtherRows(rows: seq<Order>, prot: Order, dir: Direction, digits: int, now: int)
    ensures |PairSpec(rows, prot, dir, digits, now)| == |rows|
    ensures forall i :: 0 <= i < |rows| && rows[i].id != prot.id && rows[i].id != prot.openOrderId ==>
              PairSpec(rows, prot, dir, digits, now)[i] == rows[i]
  {
    var g := GetOrderByID(rows, prot.openOrderId);
    if g.Some? {
      assert g.value.id == prot.openOrderId;
    }
  }

  // ---------------------------------------------------------------------------------------------
  // syncLimitOrder, syncTPOrder, syncLimitLongOrder, ..., syncTPShortOrder

  /** The eight selectors: which order each one picks and which pairing follows a confirmed fill. */
  datatype Selector = LimitSpot | TPSpot | LimitLong | LimitShort | SLLong | SLShort | TPLong | TPShort

  function Select(rows: seq<Order>, q: Query, s: Selector): Option<Order> {
    match s
    case LimitSpot => GetHighestNewBuyOrder(rows, q)
    case TPSpot => GetLowestTPOrder(rows, q)
    case LimitLong => GetHighestNewLongOrder(rows, q)
    case LimitShort => GetLowestNewShortOrder(rows, q)
    case SLLong => GetHighestSLLongOrder(rows, q)
    case SLShort => GetLowestSLShortOrder(rows, q)
    case TPLong => GetLowestTPLongOrder(rows, q)
    case TPShort => GetHighestTPShortOrder(rows, q)
  }

  /** The limit selectors only sync; the protective ones pair a confirmed fill (the spot take-profit
      uses the long pairing). */
  function Pairing(s: Selector): Option<Direction> {
    match s
    case LimitSpot => None
    case LimitLong => None
    case LimitShort => None
    case TPSpot => Some(LongSide)
    case SLLong => Some(LongSide)
    case TPLong => Some(LongSide)
    case SLShort => Some(ShortSide)
    case TPShort => Some(ShortSide)
  }

  /** One selector as written: the pairing is handed the copy of the order taken BEFORE the sync. */
  function SyncOrderAsWrittenSpec(rows: seq<Order>, cfg: Config, ex: Exchange, now: int, s: Selector): seq<Order> {
    match Select(rows, cfg.query, s)
    case None => rows
    case Some(o) =>
      var r := SyncSpec(rows, o, ex, cfg, now);
      if r.traded && Pairing(s).Some? then PairSpec(r.rows, o, Pairing(s).value, cfg.priceDigits, now)
      else r.rows
  }

  /** One selector, corrected: the pairing is handed the synced copy. */
  function SyncOrderSpec(rows: seq<Order>, cfg: Config, ex: Exchange, now: int, s: Selector): seq<Order> {
    match Select(rows, cfg.query, s)
    case None => rows
    case Some(o) =>
      var r := SyncSpec(rows, o, ex, cfg, now);
      if r.traded && Pairing(s).Some? then PairSpec(r.rows, r.synced, Pairing(s).value, cfg.priceDigits, now)
      else r.rows
  }

  method SyncOrderAsWritten(db: OrderStore, cfg: Config, ex: Exchange, now: int, s: Selector)
    modifies db
    ensures db.rows == SyncOrderAsWrittenSpec(old(db.rows), cfg, ex, now, s)
  {
    var o := Select(db.rows, cfg.query, s);
    if o.None? {
      return;
    }
    var traded, _ := SyncStatus(db, o.value, ex, cfg, now);
    if traded && Pairing(s).Some? {
      ClosePosition(db, o.value, Pairing(s).value, cfg.priceDigits, now);
    }
  }

  method SyncOrder(db: OrderStore, cfg: Config, ex: Exchange, now: int, s: Selector)
    modifies db
    ensures db.rows == SyncOrderSpec(old(db.rows), cfg, ex, now, s)
  {
    var o := Select(db.rows, cfg.query, s);
    if o.None? {
      return;
    }
    var traded, synced := SyncStatus(db, o.value, ex, cfg, now);
    if traded && Pairing(s).Some? {
      ClosePosition(db, synced, Pairing(s).value, cfg.priceDigits, now);
    }
  }

  /** The venue fills a NEW protective order and the fill shows in the trade list: both versions
      pair it, but as written its row is written back as NEW (closed now, with its old commission),
      while the corrected version records it FILLED with the venue's commission. */
  lemma StaleCopyRevertsStatus(rows: seq<Order>, cfg: Config, ex: Exchange, now: int, s: Selector, o: Order)
    requires Pairing(s).Some? && Select(rows, cfg.query, s) == Some(o)
    requires o.status == New && o.id != "" && o.closeTime == 0
    requires o.id in ex.orders && ex.orders[o.id].status == Filled
    requires exists i :: 0 <= i < |ex.tradeList| && ex.tradeList[i].refId == o.refId
    requires GetCommission(ex, o.refId).Some?
    ensures GetOrderByID(SyncOrderAsWrittenSpec(rows, cfg, ex, now, s), o.id) == Some(o.(closeTime := now))
    ensures var r := GetOrderByID(SyncOrderSpec(rows, cfg, ex, now, s), o.id);
            r.Some? && r.value.status == Filled && r.value.closeTime == now
              && r.value.commission == GetCommission(ex, o.refId).value
  {
    var r := SyncSpec(rows, o, ex, cfg, now);
    var o1 := Adopt(o, ex.orders[o.id], ex, now);
    assert r.traded && r.synced == o1;
    assert o in rows;
    var i :| 0 <= i < |rows| && rows[i] == o;
    assert r.rows[i].id == o.id;
    var dir := Pairing(s).value;
    PairOwnRow(r.rows, o, dir, cfg.priceDigits, now, i);
    PairOwnRow(r.rows, o1, dir, cfg.priceDigits, now, i);
  }

  /** The same stale copy misstates the position's P/L: as written the parent's P/L nets the
      protective order's commission as it was before the sync, where the corrected selector nets
      the commission the venue reports for the fill. */
  lemma StaleCopyMisstatesPL(rows: seq<Order>, cfg: Config, ex: Exchange, now: int, s: Selector, o: Order, parent: Order)
    requires Pairing(s).Some? && Select(rows, cfg.query, s) == Some(o)
    requires o.status == New && o.id != "" && o.closeTime == 0
    requires o.id in ex.orders && ex.orders[o.id].status == Filled
    requires exists i :: 0 <= i < |ex.tradeList| && ex.tradeList[i].refId == o.refId
    requires GetCommission(ex, o.refId).Some?
    requires GetOrderByID(rows, o.openOrderId) == Some(parent) && parent.id != o.id
    ensures var r := GetOrderByID(SyncOrderAsWrittenSpec(rows, cfg, ex, now, s), parent.id);
            r.Some? && r.value.pl == NormalizeDouble(RealizedPL(Pairing(s).value, parent, o), cfg.priceDigits)
    ensures var r := GetOrderByID(SyncOrderSpec(rows, cfg, ex, now, s), parent.id);
            r.Some? && r.value.pl == NormalizeDouble(RealizedPL(Pairing(s).value, parent,
                                       o.(commission := GetCommission(ex, o.refId).value)), cfg.priceDigits)
  {
    var r := SyncSpec(rows, o, ex, cfg, now);
    var o1 := Adopt(o, ex.orders[o.id], ex, now);
    assert r.traded && r.synced == o1;
    GetAfterReplaceOther(rows, o1, parent.id);
    var dir := Pairing(s).value;
    PairParentRow(r.rows, o, parent, dir, cfg.priceDigits, now);
    PairParentRow(r.rows, o1, parent, dir, cfg.priceDigits, now);
    SamePLInputs(dir, parent, o1, o.(commission := GetCommission(ex, o.refId).value));
  }

  /** The P/L reads only the protective order's price, quantity and commission. */
  lemma SamePLInputs(dir: Direction, parent: Order, a: Order, b: Order)
    requires a.openPrice == b.openPrice && a.qty == b.qty && a.commission == b.commission
    ensures RealizedPL(dir, parent, a) == RealizedPL(dir, parent, b)
  {
  }

  /** After pairing, a found parent's row carries the P/L against the protective order handed in. */
  lemma PairParentRow(rows: seq<Order>, prot: Order, parent: Order, dir: Direction, digits: int, now: int)
    requires GetOrderByID(rows, prot.openOrderId) == Some(parent) && parent.id != prot.id
    ensures var r := GetOrderByID(PairSpec(rows, prot, dir, digits, now), parent.id);
            r.Some? && r.value.pl == NormalizeDouble(RealizedPL(dir, parent, prot), digits)
  {
    var c := ClosedParent(parent, prot, dir, digits, now);
    ReplaceThenGet(rows, c);
    GetAfterReplaceOther(Replace(rows, c), prot.(closeTime := now), parent.id);
  }

  /** After pairing, the protective order's row is its copy closed now. */
  lemma PairOwnRow(rows: seq<Order>, prot: Order, dir: Direction, digits: int, now: int, i: int)
    requires prot.id != "" && 0 <= i < |rows| && rows[i].id == prot.id
    ensures GetOrderByID(PairSpec(rows, prot, dir, digits, now), prot.id) == Some(prot.(closeTime := now))
  {
    var g := GetOrderByID(rows, prot.openOrderId);
    if g.Some? {
      var mid := Replace(rows, ClosedParent(g.value, prot, dir, digits, now));
      assert mid[i].id == prot.id;
      ReplaceThenGet(mid, prot.(closeTime := now));
    } else {
      ReplaceThenGet(rows, prot.(closeTime := now));
    }
  }

  /** Each selector keeps every row in place with its id. */
  lemma SyncOrderSameIds(rows: seq<Order>, cfg: Config, ex: Exchange, now: int, s: Selector)
    ensures SameIds(rows, SyncOrderSpec(rows, cfg, ex, now, s))
    ensures |SyncOrderSpec(rows, cfg, ex, now, s)| == |rows|
  {
    var o := Select(rows, cfg.query, s);
    if o.Some? {
      var r := SyncSpec(rows, o.value, ex, cfg, now);
      SyncTouchesOwnRow(rows, o.value, ex, cfg, now);
      assert SameIds(rows, r.rows) && |r.rows| == |rows|;
      if r.traded && Pairing(s).Some? {
        PairKeepsIds(r.rows, r.synced, Pairing(s).value, cfg.priceDigits, now);
      }
    }
  }

  lemma PairKeepsIds(rows: seq<Order>, prot: Order, dir: Direction, digits: int, now: int)
    ensures SameIds(rows, PairSpec(rows, prot, dir, digits, now))
    ensures |PairSpec(rows, prot, dir, digits, now)| == |rows|
  {
    var g := GetOrderByID(rows, prot.openOrderId);
    if g.Some? {
      assert g.value.id == prot.openOrderId;
    }
  }

  /** The selectors run in order. */
  function SyncAll(rows: seq<Order>, cfg: Config, ex: Exchange, now: int, sels: seq<Selector>): seq<Order>
    decreases |sels|
  {
    if |sels| == 0 then rows
    else SyncOrderSpec(SyncAll(rows, cfg, ex, now, sels[..|sels| - 1]), cfg, ex, now, sels[|sels| - 1])
  }

  lemma {:induction false} SyncAllSameIds(rows: seq<Order>, cfg: Config, ex: Exchange, now: int, sels: seq<Selector>)
    ensures SameIds(rows, SyncAll(rows, cfg, ex, now, sels)) && |SyncAll(rows, cfg, ex, now, sels)| == |rows|
    decreases |sels|
  {
    if |sels| > 0 {
      var mid := SyncAll(rows, cfg, ex, now, sels[..|sels| - 1]);
      SyncAllSameIds(rows, cfg, ex, now, sels[..|sels| - 1]);
      SyncOrderSameIds(mid, cfg, ex, now, sels[|sels| - 1]);
    }
  }

  /** The selectors placeAsMaker runs for each product. */
  function Selectors(product: Product): (sels: seq<Selector>)
    ensures product == Spot ==> sels == [LimitSpot, TPSpot]
    ensures product == Futures ==> sels == [LimitLong, LimitShort, SLLong, SLShort, TPLong, TPShort]
  {
    match product
    case Spot => [LimitSpot, TPSpot]
    case Futures => [LimitLong, LimitShort, SLLong, SLShort, TPLong, TPShort]
  }

  // ---------------------------------------------------------------------------------------------
  // cancelOrders

  /** One cancel request. An order the venue no longer calls NEW takes over the venue's status
      (closed now unless FILLED); a NEW one is canceled and closed now; a failed lookup or cancel
      changes nothing. */
  function CancelStep(rows: seq<Order>, o: Order, ex: Exchange, now: int): seq<Order> {
    match GetOrder(ex, o)
    case None => rows
    case Some(s) =>
      if s.status != New then
        Replace(rows, o.(status := s.status, updateTime := s.updateTime,
                         closeTime := if s.status != Filled then now else o.closeTime))
      else
        match CancelOrder(ex, o, now)
        case None => rows
        case Some(c) => Replace(rows, CanceledCopy(o, c, now))
  }

  function CancelAll(rows: seq<Order>, orders: seq<Order>, ex: Exchange, now: int): seq<Order>
    decreases |orders|
  {
    if |orders| == 0 then rows
    else CancelStep(CancelAll(rows, orders[..|orders| - 1], ex, now), orders[|orders| - 1], ex, now)
  }

  /** cancelOrders: each order of the batch in turn. */
  method CancelOrders(db: OrderStore, orders: seq<Order>, ex: Exchange, now: int)
    modifies db
    ensures db.rows == CancelAll(old(db.rows), orders, ex, now)
  {
    var i := 0;
    while i < |orders|
      invariant 0 <= i <= |orders|
      invariant db.rows == CancelAll(old(db.rows), orders[..i], ex, now)
    {
      var o := orders[i];
      assert orders[..i + 1][..i] == orders[..i];
      var exo := GetOrder(ex, o);
      if exo.None? {
        i := i + 1;
        continue;
      }
      if exo.value.status != New {
        o := o.(status := exo.value.status, updateTime := exo.value.updateTime);
        if exo.value.status != Filled {
          o := o.(closeTime := now);
        }
        db.UpdateOrder(o);
        i := i + 1;
        continue;
      }
      var c := CancelOrder(ex, o, now);
      if c.None? {
        i := i + 1;
        continue;
      }
      o := o.(status := c.value.status, updateTime := c.value.updateTime, closeTime := now);
      db.UpdateOrder(o);
      i := i + 1;
    }
    assert orders[..|orders|] == orders;
  }

  /** After a cancel request that the venue answered, the order's row is no longer NEW, and it is
      closed now unless the venue reports it FILLED. */
  lemma CancelStepSettles(rows: seq<Order>, o: Order, ex: Exchange, now: int)
    requires o.id != "" && exists x :: x in rows && x.id == o.id
    requires o.id in ex.orders && (ex.orders[o.id].status != New || o.id in ex.cancelable)
    ensures var r := GetOrderByID(CancelStep(rows, o, ex, now), o.id);
            r.Some? && r.value.status != New && (r.value.status == Filled || r.value.closeTime == now)
  {
    var s := ex.orders[o.id];
    if s.status != New {
      ReplaceThenGet(rows, o.(status := s.status, updateTime := s.updateTime,
                              closeTime := if s.status != Filled then now else o.closeTime));
    } else {
      ReplaceThenGet(rows, CanceledCopy(o, Snapshot(Canceled, now), now));
    }
  }

  /** The batch touches only the rows of the orders in it. */
  lemma {:induction false} CancelAllFrame(rows: seq<Order>, orders: seq<Order>, ex: Exchange, now: int)
    ensures |CancelAll(rows, orders, ex, now)| == |rows|
    ensures forall i :: 0 <= i < |rows| && (forall j :: 0 <= j < |orders| ==> orders[j].id != rows[i].id) ==>
              CancelAll(rows, orders, ex, now)[i] == rows[i]
    decreases |orders|
  {
    if |orders| > 0 {
      var init := orders[..|orders| - 1];
      CancelAllFrame(rows, init, ex, now);
      forall i | 0 <= i < |rows| && (forall j :: 0 <= j < |orders| ==> orders[j].id != rows[i].id)
        ensures CancelAll(rows, orders, ex, now)[i] == rows[i]
      {
        assert forall j :: 0 <= j < |init| ==> init[j] == orders[j];
      }
    }
  }

  lemma {:induction false} CancelAllSameIds(rows: seq<Order>, orders: seq<Order>, ex: Exchange, now: int)
    ensures SameIds(rows, CancelAll(rows, orders, ex, now)) && |CancelAll(rows, orders, ex, now)| == |rows|
    decreases |orders|
  {
    if |orders| > 0 {
      CancelAllSameIds(rows, orders[..|orders| - 1], ex, now);
    }
  }

  // ---------------------------------------------------------------------------------------------
  // closeOrders, openLimitOrders, openMarketOrders

  /** One protective order: recorded with the venue's id and open time when the venue accepts it. */
  function CloseStep(rows: seq<Order>, o: Order, ex: Exchange): seq<Order> {
    match OpenStopOrder(ex, o)
    case None => rows
    case Some(a) => rows + [o.(refId := a.refId, openTime := a.openTime)]
  }

  function CloseAll(rows: seq<Order>, orders: seq<Order>, ex: Exchange): seq<Order>
    decreases |orders|
  {
    if |orders| == 0 then rows else CloseStep(CloseAll(rows, orders[..|orders| - 1], ex), orders[|orders| - 1], ex)
  }

  /** closeOrders: each protective order of the batch in turn. */
  method CloseOrders(db: OrderStore, orders: seq<Order>, ex: Exchange)
    modifies db
    ensures db.rows == CloseAll(old(db.rows), orders, ex)
  {
    var i := 0;
    while i < |orders|
      invariant 0 <= i <= |orders|
      invariant db.rows == CloseAll(old(db.rows), orders[..i], ex)
    {
      var o := orders[i];
      assert orders[..i + 1][..i] == orders[..i];
      var exo := OpenStopOrder(ex, o);
      if exo.Some? {
        o := o.(refId := exo.value.refId, openTime := exo.value.openTime);
        db.CreateOrder(o);
      }
      i := i + 1;
    }
    assert orders[..|orders|] == orders;
  }

  /** Every row the batch adds is one of its orders, of a stop type the client sends, as the venue
      acknowledged it. */
  predicate StopAdded(ex: Exchange, orders: seq<Order>, x: Order) {
    exists j :: 0 <= j < |orders| && OpenStopOrder(ex, orders[j]).Some?
      && x == orders[j].(refId := ex.answer(orders[j]).value.refId, openTime := ex.answer(orders[j]).value.openTime)
      && x.orderType in ex.stopTypes
  }

  lemma {:induction false} CloseAllAppends(rows: seq<Order>, orders: seq<Order>, ex: Exchange)
    ensures var r := CloseAll(rows, orders, ex);
            |rows| <= |r| <= |rows| + |orders| && r[..|rows|] == rows
    ensures var r := CloseAll(rows, orders, ex);
            forall i :: |rows| <= i < |r| ==> StopAdded(ex, orders, r[i])
    decreases |orders|
  {
    if |orders| > 0 {
      var init := orders[..|orders| - 1];
      CloseAllAppends(rows, init, ex);
      var mid := CloseAll(rows, init, ex);
      var r := CloseAll(rows, orders, ex);
      forall i | |rows| <= i < |r| ensures StopAdded(ex, orders, r[i]) {
        if i < |mid| {
          assert r[i] == mid[i];
          var j :| 0 <= j < |init| && OpenStopOrder(ex, init[j]).Some?
            && mid[i] == init[j].(refId := ex.answer(init[j]).value.refId, openTime := ex.answer(init[j]).value.openTime)
            && mid[i].orderType in ex.stopTypes;
          assert init[j] == orders[j];
        } else {
          assert OpenStopOrder(ex, orders[|orders| - 1]).Some?;
        }
      }
    }
  }

  /** One open order: only LIMIT orders the venue accepts as NEW or FILLED are recorded, with the
      venue's id, status and open time. */
  function OpenLimitStep(rows: seq<Order>, o: Order, ex: Exchange): seq<Order> {
    match OpenLimitOrder(ex, o)
    case None => rows
    case Some(a) => rows + [o.(refId := a.refId, status := a.status, openTime := a.openTime)]
  }

  function OpenLimitAll(rows: seq<Order>, orders: seq<Order>, ex: Exchange): seq<Order>
    decreases |orders|
  {
    if |orders| == 0 then rows
    else OpenLimitStep(OpenLimitAll(rows, orders[..|orders| - 1], ex), orders[|orders| - 1], ex)
  }

  /** openLimitOrders: each open order of the batch in turn. */
  method OpenLimitOrders(db: OrderStore, orders: seq<Order>, ex: Exchange)
    modifies db
    ensures db.rows == OpenLimitAll(old(db.rows), orders, ex)
  {
    var i := 0;
    while i < |orders|
      invariant 0 <= i <= |orders|
      invariant db.rows == OpenLimitAll(old(db.rows), orders[..i], ex)
    {
      var o := orders[i];
      assert orders[..i + 1][..i] == orders[..i];
      var exo := OpenLimitOrder(ex, o);
      if exo.Some? {
        o := o.(refId := exo.value.refId, status := exo.value.status, openTime := exo.value.openTime);
        db.CreateOrder(o);
      }
      i := i + 1;
    }
    assert orders[..|orders|] == orders;
  }

  /** Every row the batch adds is a LIMIT order from the batch, NEW or FILLED. */
  predicate LimitAdded(orders: seq<Order>, x: Order) {
    x.orderType == Limit && (x.status == New || x.status == Filled)
      && exists j :: 0 <= j < |orders| && x.id == orders[j].id && x.qty == orders[j].qty && x.openPrice == orders[j].openPrice
  }

  lemma {:induction false} OpenLimitAllAppends(rows: seq<Order>, orders: seq<Order>, ex: Exchange)
    ensures var r := OpenLimitAll(rows, orders, ex);
            |rows| <= |r| <= |rows| + |orders| && r[..|rows|] == rows
    ensures var r := OpenLimitAll(rows, orders, ex);
            forall i :: |rows| <= i < |r| ==> LimitAdded(orders, r[i])
    decreases |orders|
  {
    if |orders| > 0 {
      var init := orders[..|orders| - 1];
      OpenLimitAllAppends(rows, init, ex);
      var mid := OpenLimitAll(rows, init, ex);
      var r := OpenLimitAll(rows, orders, ex);
      forall i | |rows| <= i < |r| ensures LimitAdded(orders, r[i]) {
        if i < |mid| {
          assert r[i] == mid[i];
          var j :| 0 <= j < |init| && mid[i].id == init[j].id && mid[i].qty == init[j].qty
            && mid[i].openPrice == init[j].openPrice;
          assert init[j] == orders[j];
        } else {
          assert r[i].id == orders[|orders| - 1].id;
        }
      }
    }
  }

  /** The quantity a market open is sent with: the order's own, raised to the quote amount's worth
      at the ticker price when that is larger. */
  function MarketQty(cfg: Config, o: Order, price: real): (q: real)
    requires price != 0.0
    ensures q >= o.qty && q >= NormalizeDouble(cfg.quoteQty / price, cfg.qtyDigits)
    ensures q == o.qty || q == NormalizeDouble(cfg.quoteQty / price, cfg.qtyDigits)
  {
    MaxReal(o.qty, NormalizeDouble(cfg.quoteQty / price, cfg.qtyDigits))
  }

  /** The order as it is sent to the venue. */
  function MarketRequest(cfg: Config, o: Order, price: real): Order
    requires price != 0.0
  {
    o.(qty := MarketQty(cfg, o, price), orderType := Market)
  }

  /** The order as recorded: the venue's id, status and open time, and the first fill's price,
      quantity and commission when the venue reports a fill. */
  function MarketRecord(req: Order, a: Ack): Order {
    var o := req.(refId := a.refId, status := a.status, openTime := a.openTime);
    match a.fill
    case None => o
    case Some(f) => o.(openPrice := f.price, qty := f.qty, commission := f.commission)
  }

  function OpenMarketStep(rows: seq<Order>, o: Order, ex: Exchange, cfg: Config, price: real): seq<Order>
    requires price != 0.0
  {
    var req := MarketRequest(cfg, o, price);
    match OpenMarketOrder(ex, req)
    case None => rows
    case Some(a) => rows + [MarketRecord(req, a)]
  }

  function OpenMarketAll(rows: seq<Order>, orders: seq<Order>, ex: Exchange, cfg: Config, price: real): seq<Order>
    requires price != 0.0
    decreases |orders|
  {
    if |orders| == 0 then rows
    else OpenMarketStep(OpenMarketAll(rows, orders[..|orders| - 1], ex, cfg, price), orders[|orders| - 1], ex, cfg, price)
  }

  /** openMarketOrders: each open order of the batch in turn, sent as a MARKET order. */
  method OpenMarketOrders(db: OrderStore, orders: seq<Order>, ex: Exchange, cfg: Config, price: real)
    requires price != 0.0
    modifies db
    ensures db.rows == OpenMarketAll(old(db.rows), orders, ex, cfg, price)
  {
    var i := 0;
    while i < |orders|
      invariant 0 <= i <= |orders|
      invariant db.rows == OpenMarketAll(old(db.rows), orders[..i], ex, cfg, price)
    {
      var o := orders[i];
      assert orders[..i + 1][..i] == orders[..i];
      var qty := NormalizeDouble(cfg.quoteQty / price, cfg.qtyDigits);
      if qty > o.qty {
        o := o.(qty := qty);
      }
      o := o.(orderType := Market);
      var exo := OpenMarketOrder(ex, o);
      if exo.Some? {
        o := o.(refId := exo.value.refId, status := exo.value.status, openTime := exo.value.openTime);
        if exo.value.fill.Some? {
          var f := exo.value.fill.value;
          o := o.(openPrice := f.price, qty := f.qty, commission := f.commission);
        }
        db.CreateOrder(o);
      }
      i := i + 1;
    }
    assert orders[..|orders|] == orders;
  }

  /** A market open records a MARKET order; without a fill report its quantity is at least the
      order's own and at least the quote amount's worth. */
  lemma MarketRecordFacts(cfg: Config, o: Order, price: real, a: Ack)
    requires price != 0.0
    ensures var x := MarketRecord(MarketRequest(cfg, o, price), a);
            x.orderType == Market && x.id == o.id && x.refId == a.refId && x.status == a.status
    ensures var x := MarketRecord(MarketRequest(cfg, o, price), a);
            a.fill.None? ==> x.qty >= o.qty && x.qty >= NormalizeDouble(cfg.quoteQty / price, cfg.qtyDigits)
    ensures var x := MarketRecord(MarketRequest(cfg, o, price), a);
            a.fill.Some? ==> x.qty == a.fill.value.qty && x.openPrice == a.fill.value.price
  {
  }

  /** The row a market batch adds for one of its orders. */
  predicate MarketAdded(ex: Exchange, orders: seq<Order>, cfg: Config, price: real, x: Order)
    requires price != 0.0
  {
    exists j :: 0 <= j < |orders| && OpenMarketOrder(ex, MarketRequest(cfg, orders[j], price)).Some?
      && x == MarketRecord(MarketRequest(cfg, orders[j], price), ex.answer(MarketRequest(cfg, orders[j], price)).value)
  }

  lemma {:induction false} OpenMarketAllAppends(rows: seq<Order>, orders: seq<Order>, ex: Exchange, cfg: Config, price: real)
    requires price != 0.0
    ensures var r := OpenMarketAll(rows, orders, ex, cfg, price);
            |rows| <= |r| <= |rows| + |orders| && r[..|rows|] == rows
    ensures var r := OpenMarketAll(rows, orders, ex, cfg, price);
            forall i :: |rows| <= i < |r| ==> MarketAdded(ex, orders, cfg, price, r[i])
    decreases |orders|
  {
    if |orders| > 0 {
      var init := orders[..|orders| - 1];
      OpenMarketAllAppends(rows, init, ex, cfg, price);
      var mid := OpenMarketAll(rows, init, ex, cfg, price);
      var r := OpenMarketAll(rows, orders, ex, cfg, price);
      forall i | |rows| <= i < |r| ensures MarketAdded(ex, orders, cfg, price, r[i]) {
        if i < |mid| {
          assert r[i] == mid[i];
          var j :| 0 <= j < |init| && OpenMarketOrder(ex, MarketRequest(cfg, init[j], price)).Some?
            && mid[i] == MarketRecord(MarketRequest(cfg, init[j], price), ex.answer(MarketRequest(cfg, init[j], price)).value);
          assert init[j] == orders[j];
        } else {
          var j := |orders| - 1;
          assert OpenMarketOrder(ex, MarketRequest(cfg, orders[j], price)).Some?;
        }
      }
    }
  }

  // ---------------------------------------------------------------------------------------------
  // Trade, placeAsMaker, placeAsTaker

  lemma SyncAllSnoc(rows: seq<Order>, cfg: Config, ex: Exchange, now: int, sels: seq<Selector>, s: Selector)
    ensures SyncAll(rows, cfg, ex, now, sels + [s]) == SyncOrderSpec(SyncAll(rows, cfg, ex, now, sels), cfg, ex, now, s)
  {
    assert (sels + [s])[..|sels|] == sels;
  }

  /** placeAsMaker as a function of the table: the product's syncs, then the batch's cancels,
      protective orders and limit opens. */
  function MakerSpec(rows: seq<Order>, cfg: Config, ex: Exchange, now: int, to: TradeOrders): seq<Order> {
    var synced := SyncAll(rows, cfg, ex, now, Selectors(cfg.product));
    OpenLimitAll(CloseAll(CancelAll(synced, to.cancelOrders, ex, now), to.closeOrders, ex), to.openOrders, ex)
  }

  /** Trade as a function of the table: LIMIT bots place as maker, MARKET bots as taker, any other
      order type does nothing. */
  function TradeSpec(rows: seq<Order>, cfg: Config, ex: Exchange, now: int, price: real, to: TradeOrders): seq<Order>
    requires cfg.orderType == Market ==> price != 0.0
  {
    if cfg.orderType == Limit then MakerSpec(rows, cfg, ex, now, to)
    else if cfg.orderType == Market then OpenMarketAll(rows, to.openOrders, ex, cfg, price)
    else rows
  }

  /** The runs of one selector after the ones in `done`. */
  method SyncNext(db: OrderStore, cfg: Config, ex: Exchange, now: int, s: Selector,
                  ghost start: seq<Order>, ghost done: seq<Selector>)
    requires db.rows == SyncAll(start, cfg, ex, now, done)
    modifies db
    ensures db.rows == SyncAll(start, cfg, ex, now, done + [s])
  {
    SyncOrder(db, cfg, ex, now, s);
    SyncAllSnoc(start, cfg, ex, now, done, s);
  }

  /** The spot syncs of placeAsMaker: the limit buy, then the take-profit. */
  method SyncSpot(db: OrderStore, cfg: Config, ex: Exchange, now: int)
    modifies db
    ensures db.rows == SyncAll(old(db.rows), cfg, ex, now, [LimitSpot, TPSpot])
  {
    ghost var start := db.rows;
    SyncNext(db, cfg, ex, now, LimitSpot, start, []);
    SyncNext(db, cfg, ex, now, TPSpot, start, [LimitSpot]);
  }

  /** The futures syncs of placeAsMaker: both limit sides, both stop-losses, both take-profits. */
  method SyncFutures(db: OrderStore, cfg: Config, ex: Exchange, now: int)
    modifies db
    ensures db.rows == SyncAll(old(db.rows), cfg, ex, now, [LimitLong, LimitShort, SLLong, SLShort, TPLong, TPShort])
  {
    ghost var start := db.rows;
    ghost var done: seq<Selector> := [];
    SyncNext(db, cfg, ex, now, LimitLong, start, done);
    done := done + [LimitLong];
    SyncNext(db, cfg, ex, now, LimitShort, start, done);
    done := done + [LimitShort];
    SyncNext(db, cfg, ex, now, SLLong, start, done);
    done := done + [SLLong];
    SyncNext(db, cfg, ex, now, SLShort, start, done);
    done := done + [SLShort];
    SyncNext(db, cfg, ex, now, TPLong, start, done);
    done := done + [TPLong];
    SyncNext(db, cfg, ex, now, TPShort, start, done);
    done := done + [TPShort];
    assert done == [LimitLong, LimitShort, SLLong, SLShort, TPLong, TPShort];
  }

  /** placeAsMaker. The corrected selectors are used. */
  method PlaceAsMaker(db: OrderStore, cfg: Config, ex: Exchange, now: int, to: TradeOrders)
    modifies db
    ensures db.rows == MakerSpec(old(db.rows), cfg, ex, now, to)
  {
    if cfg.product == Spot {
      SyncSpot(db, cfg, ex, now);
    } else {
      SyncFutures(db, cfg, ex, now);
    }
    CancelOrders(db, to.cancelOrders, ex, now);
    CloseOrders(db, to.closeOrders, ex);
    OpenLimitOrders(db, to.openOrders, ex);
  }

  /** placeAsTaker. */
  method PlaceAsTaker(db: OrderStore, cfg: Config, ex: Exchange, price: real, to: TradeOrders)
    requires price != 0.0
    modifies db
    ensures db.rows == OpenMarketAll(old(db.rows), to.openOrders, ex, cfg, price)
  {
    OpenMarketOrders(db, to.openOrders, ex, cfg, price);
  }

  /** Trade: one tick of the engine. */
  method Trade(db: OrderStore, cfg: Config, ex: Exchange, now: int, price: real, to: TradeOrders)
    requires cfg.orderType == Market ==> price != 0.0
    modifies db
    ensures db.rows == TradeSpec(old(db.rows), cfg, ex, now, price, to)
  {
    if cfg.orderType == Limit {
      PlaceAsMaker(db, cfg, ex, now, to);
    } else if cfg.orderType == Market {
      PlaceAsTaker(db, cfg, ex, price, to);
    }
  }

  /** A tick never deletes or reorders rows: existing rows keep their place and id, and new rows
      are only appended. */
  lemma TradeKeepsRows(rows: seq<Order>, cfg: Config, ex: Exchange, now: int, price: real, to: TradeOrders)
    requires cfg.orderType == Market ==> price != 0.0
    ensures SameIds(rows, TradeSpec(rows, cfg, ex, now, price, to))
  {
    if cfg.orderType == Limit {
      var a := SyncAll(rows, cfg, ex, now, Selectors(cfg.product));
      SyncAllSameIds(rows, cfg, ex, now, Selectors(cfg.product));
      var b := CancelAll(a, to.cancelOrders, ex, now);
      CancelAllSameIds(a, to.cancelOrders, ex, now);
      var c := CloseAll(b, to.closeOrders, ex);
      CloseAllAppends(b, to.closeOrders, ex);
      assert SameIds(b, c) by {
        assert forall i :: 0 <= i < |b| ==> c[i] == c[..|b|][i];
      }
      var d := OpenLimitAll(c, to.openOrders, ex);
      OpenLimitAllAppends(c, to.openOrders, ex);
      assert SameIds(c, d) by {
        assert forall i :: 0 <= i < |c| ==> d[i] == d[..|c|][i];
      }
      SameIdsTrans(rows, a, b);
      SameIdsTrans(rows, b, c);
      SameIdsTrans(rows, c, d);
    } else if cfg.orderType == Market {
      var r := OpenMarketAll(rows, to.openOrders, ex, cfg, price);
      OpenMarketAllAppends(rows, to.openOrders, ex, cfg, price);
      assert forall i :: 0 <= i < |rows| ==> r[i] == r[..|rows|][i];
    }
  }

  /** A row a market open adds is a MARKET row. */
  lemma MarketAddedIsMarket(ex: Exchange, orders: seq<Order>, cfg: Config, price: real, x: Order)
    requires price != 0.0 && MarketAdded(ex, orders, cfg, price, x)
    ensures x.orderType == Market
  {
    var j :| 0 <= j < |orders| && OpenMarketOrder(ex, MarketRequest(cfg, orders[j], price)).Some?
      && x == MarketRecord(MarketRequest(cfg, orders[j], price), ex.answer(MarketRequest(cfg, orders[j], price)).value);
    MarketRecordFacts(cfg, orders[j], price, ex.answer(MarketRequest(cfg, orders[j], price)).value);
  }

  /** A taker tick only appends MARKET orders of the batch. */
  lemma TakerOnlyAppendsMarket(rows: seq<Order>, cfg: Config, ex: Exchange, now: int, price: real, to: TradeOrders)
    requires cfg.orderType == Market && price != 0.0
    ensures var r := TradeSpec(rows, cfg, ex, now, price, to);
            |rows| <= |r| && r[..|rows|] == rows && forall i :: |rows| <= i < |r| ==> r[i].orderType == Market
  {
    var r := OpenMarketAll(rows, to.openOrders, ex, cfg, price);
    assert TradeSpec(rows, cfg, ex, now, price, to) == r;
    OpenMarketAllAppends(rows, to.openOrders, ex, cfg, price);
    forall i | |rows| <= i < |r| ensures r[i].orderType == Market {
      MarketAddedIsMarket(ex, to.openOrders, cfg, price, r[i]);
    }
  }
}
