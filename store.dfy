/** The order table and its queries. The table is an in-memory sequence of rows in primary-key
    order; every query is a filter, optionally an ordering, and optionally a pick of the first row. */
module Store {
  import opened Types

  /** The query record: the bot, venue and symbol every query filters on, plus the fields some
      queries read. */
  datatype Query = Query(
    botId: int,
    exchange: string,
    symbol: string,
    side: Side,
    zonePrice: real,
    openPrice: real,
    openTime: int)

  function Abs(x: real): (r: real)
    ensures r >= 0.0 && (r == x || r == -x)
  {
    if x < 0.0 then -x else x
  }

  // ---------------------------------------------------------------------------------------------
  // Filtering, ordering, picking

  /** The rows that satisfy `keep`, in table order: each matching row as often as the table holds
      it, and no other row. */
  function Where(rows: seq<Order>, keep: Order -> bool): (r: seq<Order>)
    ensures forall o :: o in r <==> o in rows && keep(o)
    ensures forall o :: multiset(r)[o] == if keep(o) then multiset(rows)[o] else 0
    ensures |r| <= |rows|
  {
    if |rows| == 0 then []
    else
      assert rows == [rows[0]] + rows[1..];
      if keep(rows[0]) then [rows[0]] + Where(rows[1..], keep)
      else Where(rows[1..], keep)
  }

  /** `Where(keep).First`: the first matching row in table order, or nothing. */
  function FirstWhere(rows: seq<Order>, keep: Order -> bool): (r: Option<Order>)
    ensures r.None? <==> forall o :: o in rows ==> !keep(o)
    ensures r.Some? ==> r.value in rows && keep(r.value)
    ensures r.Some? ==> exists i :: 0 <= i < |rows| && rows[i] == r.value && forall j :: 0 <= j < i ==> !keep(rows[j])
  {
    if |rows| == 0 then None
    else if keep(rows[0]) then Some(rows[0])
    else
      var r := FirstWhere(rows[1..], keep);
      assert rows == [rows[0]] + rows[1..];
      if r.Some? then
        var i :| 0 <= i < |rows[1..]| && rows[1..][i] == r.value && forall j :: 0 <= j < i ==> !keep(rows[1..][j]);
        assert rows[i + 1] == r.value;
        assert forall j :: 0 <= j < i + 1 ==> !keep(rows[j]) by {
          forall j | 0 <= j < i + 1 ensures !keep(rows[j]) {
            if j > 0 {
              assert rows[j] == rows[1..][j - 1];
            }
          }
        }
        r
      else
        r
  }

  /** A sort column of the ORDER BY clauses. */
  datatype Column = ZonePrice | OpenPrice | OpenTime

  function Key(o: Order, c: Column): real {
    match c
    case ZonePrice => o.zonePrice
    case OpenPrice => o.openPrice
    case OpenTime => o.openTime as real
  }

  /** `a` may precede `b` in an ascending (or descending) order on column `c`. */
  predicate InOrder(a: Order, b: Order, c: Column, asc: bool) {
    if asc then Key(a, c) <= Key(b, c) else Key(a, c) >= Key(b, c)
  }

  predicate SortedBy(rows: seq<Order>, c: Column, asc: bool) {
    forall i, j :: 0 <= i < j < |rows| ==> InOrder(rows[i], rows[j], c, asc)
  }

  /** Inserts `x` before the first row it may precede. */
  function Insert(x: Order, rows: seq<Order>, c: Column, asc: bool): (r: seq<Order>)
    requires SortedBy(rows, c, asc)
    ensures SortedBy(r, c, asc)
    ensures multiset(r) == multiset(rows) + multiset{x}
  {
    if |rows| == 0 then [x]
    else if InOrder(x, rows[0], c, asc) then [x] + rows
    else
      var rest := Insert(x, rows[1..], c, asc);
      assert rows == [rows[0]] + rows[1..];
      HeadLeadsInsert(x, rows, rest, c, asc);
      PrependSorted(rows[0], rest, c, asc);
      [rows[0]] + rest
  }

  /** The head of a sorted table that `x` may not precede may precede every row of the rest with
      `x` inserted. */
  lemma HeadLeadsInsert(x: Order, rows: seq<Order>, rest: seq<Order>, c: Column, asc: bool)
    requires |rows| > 0 && SortedBy(rows, c, asc) && !InOrder(x, rows[0], c, asc)
    requires multiset(rest) == multiset(rows[1..]) + multiset{x}
    ensures forall k :: 0 <= k < |rest| ==> InOrder(rows[0], rest[k], c, asc)
  {
    forall k | 0 <= k < |rest| ensures InOrder(rows[0], rest[k], c, asc) {
      assert rest[k] in multiset(rest);
      if rest[k] != x {
        assert rest[k] in multiset(rows[1..]);
        var j :| 0 <= j < |rows[1..]| && rows[1..][j] == rest[k];
        assert rows[j + 1] == rest[k];
      }
    }
  }

  lemma PrependSorted(h: Order, rest: seq<Order>, c: Column, asc: bool)
    requires SortedBy(rest, c, asc)
    requires forall k :: 0 <= k < |rest| ==> InOrder(h, rest[k], c, asc)
    ensures SortedBy([h] + rest, c, asc)
  {
    var r := [h] + rest;
    assert forall i :: 0 < i < |r| ==> r[i] == rest[i - 1];
  }

  /** ORDER BY `c` (ascending when `asc`); rows with equal keys keep their table order. */
  function OrderBy(rows: seq<Order>, c: Column, asc: bool): (r: seq<Order>)
    ensures SortedBy(r, c, asc)
    ensures multiset(r) == multiset(rows)
  {
    if |rows| == 0 then []
    else
      assert rows == [rows[0]] + rows[1..];
      Insert(rows[0], OrderBy(rows[1..], c, asc), c, asc)
  }

  /** `Where(keep).Order(c).Limit(1).Find`: the first row of the sorted selection. It is absent
      exactly when no row matches; otherwise it matches and no matching row precedes it. */
  function Top(rows: seq<Order>, keep: Order -> bool, c: Column, asc: bool): (r: Option<Order>)
    ensures r == None <==> (forall o :: o in rows ==> !keep(o))
    ensures r.Some? ==> r.value in rows && keep(r.value)
    ensures r.Some? ==> forall o :: o in rows && keep(o) ==> InOrder(r.value, o, c, asc)
  {
    var sel := Where(rows, keep);
    var sorted := OrderBy(sel, c, asc);
    SortedMembers(sel, c, asc);
    if |sorted| == 0 then
      None
    else
      assert sorted[0] in sorted;
      forall o | o in rows && keep(o) ensures InOrder(sorted[0], o, c, asc) {
        var j :| 0 <= j < |sorted| && sorted[j] == o;
      }
      Some(sorted[0])
  }

  /** A row in sorted output is a row of the selection, and conversely. */
  lemma SortedMembers(sel: seq<Order>, c: Column, asc: bool)
    ensures forall o :: o in OrderBy(sel, c, asc) <==> o in sel
  {
    var s := OrderBy(sel, c, asc);
    forall o ensures o in s <==> o in sel {
      assert o in s <==> o in multiset(s);
      assert o in sel <==> o in multiset(sel);
    }
  }

  // ---------------------------------------------------------------------------------------------
  // Filters shared by the queries

  predicate SameBot(q: Query, o: Order) {
    o.botId == q.botId && o.exchange == q.exchange && o.symbol == q.symbol
  }

  /** Not canceled and not closed: the `status <> CANCELED AND close_time = 0` condition. */
  predicate Active(o: Order) {
    o.status != Canceled && o.closeTime == 0
  }

  predicate LimitOrMarket(o: Order) {
    o.orderType == Limit || o.orderType == Market
  }

  // ---------------------------------------------------------------------------------------------
  // Queries

  predicate ZoneMatch(q: Query, o: Order) {
    SameBot(q, o) && o.zonePrice == q.zonePrice && o.side == q.side && LimitOrMarket(o) && Active(o)
  }

  /** IsEmptyZone: the zone is free when the first matching row is missing or has a zero open
      price. When every matching row has a price, the zone is free exactly when none matches. */
  function IsEmptyZone(rows: seq<Order>, q: Query): (r: bool)
    ensures !r ==> exists o :: o in rows && ZoneMatch(q, o) && o.openPrice != 0.0
    ensures (forall o :: o in rows && ZoneMatch(q, o) ==> o.openPrice != 0.0) ==>
              (r <==> forall o :: o in rows ==> !ZoneMatch(q, o))
  {
    var found := FirstWhere(rows, (o: Order) => ZoneMatch(q, o));
    found.None? || found.value.openPrice == 0.0
  }

  /** GetOrderByID: the first row with that id, or nothing when the id is empty or unknown. */
  function GetOrderByID(rows: seq<Order>, id: string): (r: Option<Order>)
    ensures r.None? <==> id == "" || forall o :: o in rows ==> o.id != id
    ensures r.Some? ==> r.value in rows && r.value.id == id
  {
    var found := FirstWhere(rows, (o: Order) => o.id == id);
    if found.None? || found.value.id == "" then None else found
  }

  predicate NewBuyMatch(q: Query, o: Order) {
    SameBot(q, o) && o.side == Buy && o.orderType == Limit && o.status == New && o.closeTime == 0
  }

  /** GetHighestNewBuyOrder: the open NEW LIMIT BUY row with the greatest zone price. */
  function GetHighestNewBuyOrder(rows: seq<Order>, q: Query): (r: Option<Order>)
    ensures r.None? <==> forall o :: o in rows ==> !NewBuyMatch(q, o)
    ensures r.Some? ==> r.value in rows && NewBuyMatch(q, r.value)
    ensures r.Some? ==> forall o :: o in rows && NewBuyMatch(q, o) ==> o.zonePrice <= r.value.zonePrice
  {
    Top(rows, (o: Order) => NewBuyMatch(q, o), ZonePrice, false)
  }

  predicate FilledBuyMatch(q: Query, o: Order) {
    SameBot(q, o) && o.side == Buy && LimitOrMarket(o) && o.status == Filled && o.closeTime == 0
  }

  /** GetLowestFilledBuyOrder: the open FILLED LIMIT/MARKET BUY row with the least zone price. */
  function GetLowestFilledBuyOrder(rows: seq<Order>, q: Query): (r: Option<Order>)
    ensures r.None? <==> forall o :: o in rows ==> !FilledBuyMatch(q, o)
    ensures r.Some? ==> r.value in rows && FilledBuyMatch(q, r.value)
    ensures r.Some? ==> forall o :: o in rows && FilledBuyMatch(q, o) ==> r.value.zonePrice <= o.zonePrice
  {
    Top(rows, (o: Order) => FilledBuyMatch(q, o), ZonePrice, true)
  }

  predicate ActiveLimitMatch(q: Query, o: Order) {
    SameBot(q, o) && LimitOrMarket(o) && Active(o) && (q.side == NoSide || o.side == q.side)
  }

  /** GetActiveLimitOrders: the active LIMIT/MARKET rows (of the query's side when it has one);
      BUY rows by ascending zone price, SELL rows by descending zone price. */
  function GetActiveLimitOrders(rows: seq<Order>, q: Query): (r: seq<Order>)
    ensures forall o :: o in r <==> o in rows && ActiveLimitMatch(q, o)
    ensures forall o :: multiset(r)[o] == if ActiveLimitMatch(q, o) then multiset(rows)[o] else 0
    ensures q.side == Buy ==> SortedBy(r, ZonePrice, true)
    ensures q.side == Sell ==> SortedBy(r, ZonePrice, false)
  {
    var sel := Where(rows, (o: Order) => ActiveLimitMatch(q, o));
    if q.side == NoSide then sel
    else
      SortedMembers(sel, ZonePrice, q.side == Buy);
      OrderBy(sel, ZonePrice, q.side == Buy)
  }

  /** GetActiveOrders: every row of the bot that is neither canceled nor closed, in table order. */
  function GetActiveOrders(rows: seq<Order>, q: Query): (r: seq<Order>)
    ensures forall o :: o in r <==> o in rows && SameBot(q, o) && Active(o)
    ensures forall o :: multiset(r)[o] == if SameBot(q, o) && Active(o) then multiset(rows)[o] else 0
  {
    Where(rows, (o: Order) => SameBot(q, o) && Active(o))
  }

  /** The price condition of GetLimitOrder: within the slippage band when slippage is positive,
      the exact price otherwise. */
  predicate PriceMatch(target: real, slippage: real, price: real) {
    if slippage > 0.0 then target - target * slippage <= price <= target + target * slippage
    else price == target
  }

  predicate LimitMatch(q: Query, slippage: real, o: Order) {
    SameBot(q, o) && PriceMatch(q.openPrice, slippage, o.openPrice) && o.side == q.side
    && o.orderType == Limit && Active(o)
  }

  /** GetLimitOrder: the first active LIMIT row of that side whose open price matches; a row with
      a zero open price counts as no row. */
  function GetLimitOrder(rows: seq<Order>, q: Query, slippage: real): (r: Option<Order>)
    ensures r.Some? ==> r.value in rows && LimitMatch(q, slippage, r.value) && r.value.openPrice != 0.0
    ensures (forall o :: o in rows ==> !LimitMatch(q, slippage, o)) ==> r.None?
    ensures (forall o :: o in rows && LimitMatch(q, slippage, o) ==> o.openPrice != 0.0) ==>
              (r.None? <==> forall o :: o in rows ==> !LimitMatch(q, slippage, o))
  {
    var found := FirstWhere(rows, (o: Order) => LimitMatch(q, slippage, o));
    if found.None? || found.value.openPrice == 0.0 then None else found
  }

  predicate LimitListMatch(q: Query, o: Order) {
    SameBot(q, o) && o.orderType == Limit && Active(o) && (q.side == NoSide || o.side == q.side)
  }

  /** GetLimitOrders: the active LIMIT rows (of the query's side when it has one). With a side, the
      newest first when the query carries an open time, otherwise BUY by ascending and SELL by
      descending zone price. */
  function GetLimitOrders(rows: seq<Order>, q: Query): (r: seq<Order>)
    ensures forall o :: o in r <==> o in rows && LimitListMatch(q, o)
    ensures forall o :: multiset(r)[o] == if LimitListMatch(q, o) then multiset(rows)[o] else 0
    ensures q.side != NoSide && q.openTime > 0 ==> SortedBy(r, OpenTime, false)
    ensures q.side == Buy && q.openTime <= 0 ==> SortedBy(r, ZonePrice, true)
    ensures q.side == Sell && q.openTime <= 0 ==> SortedBy(r, ZonePrice, false)
  {
    var sel := Where(rows, (o: Order) => LimitListMatch(q, o));
    if q.side == NoSide then sel
    else if q.openTime > 0 then
      SortedMembers(sel, OpenTime, false);
      OrderBy(sel, OpenTime, false)
    else
      SortedMembers(sel, ZonePrice, q.side == Buy);
      OrderBy(sel, ZonePrice, q.side == Buy)
  }

  /** The shape shared by the list queries that filter and then sort newest first. */
  function NewestFirst(rows: seq<Order>, keep: Order -> bool): (r: seq<Order>)
    ensures forall o :: o in r <==> o in rows && keep(o)
    ensures forall o :: multiset(r)[o] == if keep(o) then multiset(rows)[o] else 0
    ensures SortedBy(r, OpenTime, false)
  {
    var sel := Where(rows, keep);
    SortedMembers(sel, OpenTime, false);
    OrderBy(sel, OpenTime, false)
  }

  predicate FilledLimitBuyMatch(q: Query, o: Order) {
    SameBot(q, o) && o.orderType == Limit && o.side == Buy && o.status == Filled && o.closeTime == 0
  }

  /** GetFilledLimitBuyOrders: open FILLED LIMIT BUY rows, newest first. */
  function GetFilledLimitBuyOrders(rows: seq<Order>, q: Query): (r: seq<Order>)
    ensures forall o :: o in r <==> o in rows && FilledLimitBuyMatch(q, o)
    ensures forall o :: multiset(r)[o] == if FilledLimitBuyMatch(q, o) then multiset(rows)[o] else 0
    ensures SortedBy(r, OpenTime, false)
  {
    NewestFirst(rows, (o: Order) => FilledLimitBuyMatch(q, o))
  }

  /** An open LIMIT row of a position side with a given status. */
  predicate LimitPosMatch(q: Query, pos: PosSide, status: Status, o: Order) {
    SameBot(q, o) && o.orderType == Limit && o.posSide == pos && o.status == status && o.closeTime == 0
  }

  /** GetFilledLimitLongOrders: open FILLED LIMIT LONG rows, newest first. */
  function GetFilledLimitLongOrders(rows: seq<Order>, q: Query): (r: seq<Order>)
    ensures forall o :: o in r <==> o in rows && LimitPosMatch(q, Long, Filled, o)
    ensures forall o :: multiset(r)[o] == if LimitPosMatch(q, Long, Filled, o) then multiset(rows)[o] else 0
    ensures SortedBy(r, OpenTime, false)
  {
    NewestFirst(rows, (o: Order) => LimitPosMatch(q, Long, Filled, o))
  }

  /** GetFilledLimitShortOrders: open FILLED LIMIT SHORT rows, newest first. */
  function GetFilledLimitShortOrders(rows: seq<Order>, q: Query): (r: seq<Order>)
    ensures forall o :: o in r <==> o in rows && LimitPosMatch(q, Short, Filled, o)
    ensures forall o :: multiset(r)[o] == if LimitPosMatch(q, Short, Filled, o) then multiset(rows)[o] else 0
    ensures SortedBy(r, OpenTime, false)
  {
    NewestFirst(rows, (o: Order) => LimitPosMatch(q, Short, Filled, o))
  }

  /** GetNewLimitLongOrders: open NEW LIMIT LONG rows, newest first. */
  function GetNewLimitLongOrders(rows: seq<Order>, q: Query): (r: seq<Order>)
    ensures forall o :: o in r <==> o in rows && LimitPosMatch(q, Long, New, o)
    ensures forall o :: multiset(r)[o] == if LimitPosMatch(q, Long, New, o) then multiset(rows)[o] else 0
    ensures SortedBy(r, OpenTime, false)
  {
    NewestFirst(rows, (o: Order) => LimitPosMatch(q, Long, New, o))
  }

  /** GetNewLimitShortOrders: open NEW LIMIT SHORT rows, newest first. */
  function GetNewLimitShortOrders(rows: seq<Order>, q: Query): (r: seq<Order>)
    ensures forall o :: o in r <==> o in rows && LimitPosMatch(q, Short, New, o)
    ensures forall o :: multiset(r)[o] == if LimitPosMatch(q, Short, New, o) then multiset(rows)[o] else 0
    ensures SortedBy(r, OpenTime, false)
  {
    NewestFirst(rows, (o: Order) => LimitPosMatch(q, Short, New, o))
  }

  /** An open NEW futures stop row (STOP or TAKE_PROFIT) of a position side. */
  predicate StopPosMatch(q: Query, pos: PosSide, o: Order) {
    SameBot(q, o) && (o.orderType == FSL || o.orderType == FTP) && o.posSide == pos
    && o.status == New && o.closeTime == 0
  }

  /** GetNewStopLongOrders: open NEW futures stop rows of the LONG side, newest first. */
  function GetNewStopLongOrders(rows: seq<Order>, q: Query): (r: seq<Order>)
    ensures forall o :: o in r <==> o in rows && StopPosMatch(q, Long, o)
    ensures forall o :: multiset(r)[o] == if StopPosMatch(q, Long, o) then multiset(rows)[o] else 0
    ensures SortedBy(r, OpenTime, false)
  {
    NewestFirst(rows, (o: Order) => StopPosMatch(q, Long, o))
  }

  /** GetNewStopShortOrders: open NEW futures stop rows of the SHORT side, newest first. */
  function GetNewStopShortOrders(rows: seq<Order>, q: Query): (r: seq<Order>)
    ensures forall o :: o in r <==> o in rows && StopPosMatch(q, Short, o)
    ensures forall o :: multiset(r)[o] == if StopPosMatch(q, Short, o) then multiset(rows)[o] else 0
    ensures SortedBy(r, OpenTime, false)
  {
    NewestFirst(rows, (o: Order) => StopPosMatch(q, Short, o))
  }

  /** GetNewOrders: NEW rows of the bot, newest first; closed rows are not excluded. */
  function GetNewOrders(rows: seq<Order>, q: Query): (r: seq<Order>)
    ensures forall o :: o in r <==> o in rows && SameBot(q, o) && o.status == New
    ensures forall o :: multiset(r)[o] == if SameBot(q, o) && o.status == New then multiset(rows)[o] else 0
    ensures SortedBy(r, OpenTime, false)
  {
    NewestFirst(rows, (o: Order) => SameBot(q, o) && o.status == New)
  }

  /** GetNewBuyOrders: NEW BUY rows of the bot, in table order. */
  function GetNewBuyOrders(rows: seq<Order>, q: Query): (r: seq<Order>)
    ensures forall o :: o in r <==> o in rows && SameBot(q, o) && o.status == New && o.side == Buy
    ensures forall o :: multiset(r)[o] == if SameBot(q, o) && o.status == New && o.side == Buy then multiset(rows)[o] else 0
  {
    Where(rows, (o: Order) => SameBot(q, o) && o.status == New && o.side == Buy)
  }

  /** A NEW LIMIT row of a position side; closed rows are not excluded. */
  predicate NewPosMatch(q: Query, pos: PosSide, o: Order) {
    SameBot(q, o) && o.posSide == pos && o.orderType == Limit && o.status == New
  }

  /** GetHighestNewLongOrder: the NEW LIMIT LONG row with the greatest open price. */
  function GetHighestNewLongOrder(rows: seq<Order>, q: Query): (r: Option<Order>)
    ensures r.None? <==> forall o :: o in rows ==> !NewPosMatch(q, Long, o)
    ensures r.Some? ==> r.value in rows && NewPosMatch(q, Long, r.value)
    ensures r.Some? ==> forall o :: o in rows && NewPosMatch(q, Long, o) ==> o.openPrice <= r.value.openPrice
  {
    Top(rows, (o: Order) => NewPosMatch(q, Long, o), OpenPrice, false)
  }

  /** GetLowestNewShortOrder: the NEW LIMIT SHORT row with the least open price. */
  function GetLowestNewShortOrder(rows: seq<Order>, q: Query): (r: Option<Order>)
    ensures r.None? <==> forall o :: o in rows ==> !NewPosMatch(q, Short, o)
    ensures r.Some? ==> r.value in rows && NewPosMatch(q, Short, r.value)
    ensures r.Some? ==> forall o :: o in rows && NewPosMatch(q, Short, o) ==> r.value.openPrice <= o.openPrice
  {
    Top(rows, (o: Order) => NewPosMatch(q, Short, o), OpenPrice, true)
  }

  predicate IsStopLoss(t: OrderType) {
    t == SL || t == FSL
  }

  predicate IsTakeProfit(t: OrderType) {
    t == TP || t == FTP
  }

  /** A non-canceled protective row of the parent `openOrderId`; `sl` picks stop-loss types,
      otherwise take-profit types. Closed rows are not excluded. */
  predicate ProtectiveMatch(openOrderId: string, sl: bool, o: Order) {
    o.openOrderId == openOrderId && (if sl then IsStopLoss(o.orderType) else IsTakeProfit(o.orderType))
    && o.status != Canceled
  }

  /** GetSLOrder: the first stop-loss row of the parent, or nothing; a found row without an id
      counts as nothing. */
  function GetSLOrder(rows: seq<Order>, openOrderId: string): (r: Option<Order>)
    ensures r.Some? ==> r.value in rows && ProtectiveMatch(openOrderId, true, r.value)
    ensures (forall o :: o in rows && ProtectiveMatch(openOrderId, true, o) ==> o.id != "") ==>
              (r.None? <==> forall o :: o in rows ==> !ProtectiveMatch(openOrderId, true, o))
  {
    var found := FirstWhere(rows, (o: Order) => ProtectiveMatch(openOrderId, true, o));
    if found.None? || found.value.id == "" then None else found
  }

  /** GetTPOrder: the take-profit counterpart of GetSLOrder. */
  function GetTPOrder(rows: seq<Order>, openOrderId: string): (r: Option<Order>)
    ensures r.Some? ==> r.value in rows && ProtectiveMatch(openOrderId, false, r.value)
    ensures (forall o :: o in rows && ProtectiveMatch(openOrderId, false, o) ==> o.id != "") ==>
              (r.None? <==> forall o :: o in rows ==> !ProtectiveMatch(openOrderId, false, o))
  {
    var found := FirstWhere(rows, (o: Order) => ProtectiveMatch(openOrderId, false, o));
    if found.None? || found.value.id == "" then None else found
  }

  predicate ActiveTPMatch(q: Query, o: Order) {
    SameBot(q, o) && o.orderType == TP && Active(o)
  }

  /** GetTPOrders: active TAKE_PROFIT_LIMIT rows by ascending open price. */
  function GetTPOrders(rows: seq<Order>, q: Query): (r: seq<Order>)
    ensures forall o :: o in r <==> o in rows && ActiveTPMatch(q, o)
    ensures forall o :: multiset(r)[o] == if ActiveTPMatch(q, o) then multiset(rows)[o] else 0
    ensures SortedBy(r, OpenPrice, true)
  {
    var sel := Where(rows, (o: Order) => ActiveTPMatch(q, o));
    SortedMembers(sel, OpenPrice, true);
    OrderBy(sel, OpenPrice, true)
  }

  /** GetLowestTPOrder: the first of GetTPOrders. */
  function GetLowestTPOrder(rows: seq<Order>, q: Query): (r: Option<Order>)
    ensures r.None? <==> forall o :: o in rows ==> !ActiveTPMatch(q, o)
    ensures r.Some? ==> r.value in rows && ActiveTPMatch(q, r.value)
    ensures r.Some? ==> forall o :: o in rows && ActiveTPMatch(q, o) ==> r.value.openPrice <= o.openPrice
  {
    var tps := GetTPOrders(rows, q);
    if |tps| == 0 then None
    else
      AscendingEnds(tps);
      Some(tps[0])
  }

  /** GetHighestTPOrder: the last of GetTPOrders. */
  function GetHighestTPOrder(rows: seq<Order>, q: Query): (r: Option<Order>)
    ensures r.None? <==> forall o :: o in rows ==> !ActiveTPMatch(q, o)
    ensures r.Some? ==> r.value in rows && ActiveTPMatch(q, r.value)
    ensures r.Some? ==> forall o :: o in rows && ActiveTPMatch(q, o) ==> o.openPrice <= r.value.openPrice
  {
    var tps := GetTPOrders(rows, q);
    if |tps| == 0 then None
    else
      AscendingEnds(tps);
      Some(tps[|tps| - 1])
  }

  /** The ends of a list ascending by open price bound every row of it. */
  lemma AscendingEnds(r: seq<Order>)
    requires |r| > 0 && SortedBy(r, OpenPrice, true)
    ensures r[0] in r && r[|r| - 1] in r
    ensures forall o :: o in r ==> r[0].openPrice <= o.openPrice <= r[|r| - 1].openPrice
  {
    forall o | o in r ensures r[0].openPrice <= o.openPrice <= r[|r| - 1].openPrice {
      var i :| 0 <= i < |r| && r[i] == o;
      assert InOrder(r[0], r[i], OpenPrice, true) || i == 0;
      assert InOrder(r[i], r[|r| - 1], OpenPrice, true) || i == |r| - 1;
    }
  }

  /** The lowest active TP never lies above the highest, and both exist together. */
  lemma LowestTPNotAboveHighest(rows: seq<Order>, q: Query)
    ensures GetLowestTPOrder(rows, q).Some? <==> GetHighestTPOrder(rows, q).Some?
    ensures GetLowestTPOrder(rows, q).Some? ==>
              GetLowestTPOrder(rows, q).value.openPrice <= GetHighestTPOrder(rows, q).value.openPrice
  {
  }

  /** An active futures protective row of a position side and type. */
  predicate ActiveStop(q: Query, o: Order, pos: PosSide, t: OrderType) {
    SameBot(q, o) && o.posSide == pos && o.orderType == t && Active(o)
  }

  /** GetHighestSLLongOrder: the active STOP LONG row with the greatest open price. */
  function GetHighestSLLongOrder(rows: seq<Order>, q: Query): (r: Option<Order>)
    ensures r.None? <==> forall o :: o in rows ==> !ActiveStop(q, o, Long, FSL)
    ensures r.Some? ==> r.value in rows && ActiveStop(q, r.value, Long, FSL)
    ensures r.Some? ==> forall o :: o in rows && ActiveStop(q, o, Long, FSL) ==> o.openPrice <= r.value.openPrice
  {
    Top(rows, (o: Order) => ActiveStop(q, o, Long, FSL), OpenPrice, false)
  }

  /** GetLowestSLShortOrder: the active STOP SHORT row with the least open price. */
  function GetLowestSLShortOrder(rows: seq<Order>, q: Query): (r: Option<Order>)
    ensures r.None? <==> forall o :: o in rows ==> !ActiveStop(q, o, Short, FSL)
    ensures r.Some? ==> r.value in rows && ActiveStop(q, r.value, Short, FSL)
    ensures r.Some? ==> forall o :: o in rows && ActiveStop(q, o, Short, FSL) ==> r.value.openPrice <= o.openPrice
  {
    Top(rows, (o: Order) => ActiveStop(q, o, Short, FSL), OpenPrice, true)
  }

  /** GetLowestTPLongOrder: the active TAKE_PROFIT LONG row with the least open price. */
  function GetLowestTPLongOrder(rows: seq<Order>, q: Query): (r: Option<Order>)
    ensures r.None? <==> forall o :: o in rows ==> !ActiveStop(q, o, Long, FTP)
    ensures r.Some? ==> r.value in rows && ActiveStop(q, r.value, Long, FTP)
    ensures r.Some? ==> forall o :: o in rows && ActiveStop(q, o, Long, FTP) ==> r.value.openPrice <= o.openPrice
  {
    Top(rows, (o: Order) => ActiveStop(q, o, Long, FTP), OpenPrice, true)
  }

  /** GetHighestTPShortOrder: the active TAKE_PROFIT SHORT row with the greatest open price. */
  function GetHighestTPShortOrder(rows: seq<Order>, q: Query): (r: Option<Order>)
    ensures r.None? <==> forall o :: o in rows ==> !ActiveStop(q, o, Short, FTP)
    ensures r.Some? ==> r.value in rows && ActiveStop(q, r.value, Short, FTP)
    ensures r.Some? ==> forall o :: o in rows && ActiveStop(q, o, Short, FTP) ==> o.openPrice <= r.value.openPrice
  {
    Top(rows, (o: Order) => ActiveStop(q, o, Short, FTP), OpenPrice, false)
  }

  /** GetNewSLOrders: NEW STOP_LOSS_LIMIT rows by ascending open price (closed rows not excluded). */
  function GetNewSLOrders(rows: seq<Order>, q: Query): (r: seq<Order>)
    ensures forall o :: o in r <==> o in rows && SameBot(q, o) && o.orderType == SL && o.status == New
    ensures forall o :: multiset(r)[o] == if SameBot(q, o) && o.orderType == SL && o.status == New then multiset(rows)[o] else 0
    ensures SortedBy(r, OpenPrice, true)
  {
    var sel := Where(rows, (o: Order) => SameBot(q, o) && o.orderType == SL && o.status == New);
    SortedMembers(sel, OpenPrice, true);
    OrderBy(sel, OpenPrice, true)
  }

  /** GetNewTPOrders: NEW TAKE_PROFIT_LIMIT rows by descending open price, each as often as the
      table holds it. */
  function GetNewTPOrders(rows: seq<Order>, q: Query): (r: seq<Order>)
    ensures forall o :: o in r <==> o in rows && SameBot(q, o) && o.orderType == TP && o.status == New
    ensures forall o :: multiset(r)[o] == if SameBot(q, o) && o.orderType == TP && o.status == New then multiset(rows)[o] else 0
    ensures SortedBy(r, OpenPrice, false)
  {
    var sel := Where(rows, (o: Order) => SameBot(q, o) && o.orderType == TP && o.status == New);
    SortedMembers(sel, OpenPrice, false);
    OrderBy(sel, OpenPrice, false)
  }

  // ---------------------------------------------------------------------------------------------
  // GetNearestOrder

  predicate NearestCandidate(q: Query, o: Order) {
    SameBot(q, o) && o.side == q.side && Active(o)
  }

  function Distance(o: Order, target: real): real {
    Abs(o.openPrice - target)
  }

  /** The running choice of GetNearestOrder's loop over `cands`: a later row replaces the current
      pick when the pick has a zero open price or the row is strictly closer to `target`. */
  function NearestIdx(cands: seq<Order>, target: real): (k: nat)
    requires |cands| > 0
    ensures k < |cands|
  {
    if |cands| == 1 then 0
    else
      var k := NearestIdx(cands[..|cands| - 1], target);
      var x := cands[|cands| - 1];
      if cands[k].openPrice == 0.0 || Distance(x, target) < Distance(cands[k], target) then |cands| - 1 else k
  }

  /** With every candidate priced, the pick is strictly closer than every earlier candidate and no
      farther than every later one: the nearest row, ties going to the earliest. */
  lemma {:induction false} NearestIsClosest(cands: seq<Order>, target: real)
    requires |cands| > 0
    requires forall i :: 0 <= i < |cands| ==> cands[i].openPrice != 0.0
    ensures forall i :: 0 <= i < NearestIdx(cands, target) ==>
              Distance(cands[NearestIdx(cands, target)], target) < Distance(cands[i], target)
    ensures forall i :: NearestIdx(cands, target) <= i < |cands| ==>
              Distance(cands[NearestIdx(cands, target)], target) <= Distance(cands[i], target)
  {
    if |cands| > 1 {
      var init := cands[..|cands| - 1];
      NearestIsClosest(init, target);
      var k := NearestIdx(init, target);
      assert forall i :: 0 <= i < |init| ==> init[i] == cands[i];
    }
  }

  /** The row GetNearestOrder answers: nothing when the query's side has no active row, otherwise
      the candidate the selection settles on. */
  function Nearest(rows: seq<Order>, q: Query): (r: Option<Order>)
    ensures r.None? <==> forall o :: o in rows ==> !NearestCandidate(q, o)
    ensures r.Some? ==> r.value in rows && NearestCandidate(q, r.value)
  {
    var cands := Where(rows, (o: Order) => NearestCandidate(q, o));
    if |cands| == 0 then None
    else
      assert cands[0] in cands;
      Some(cands[NearestIdx(cands, q.openPrice)])
  }

  /** GetNearestOrder: among the active rows of the query's side, nothing when there are none,
      otherwise the row the selection loop settles on. */
  method GetNearestOrder(rows: seq<Order>, q: Query) returns (r: Option<Order>)
    ensures var cands := Where(rows, (o: Order) => NearestCandidate(q, o));
            (r.None? <==> |cands| == 0)
            && (r.Some? ==> r.value == cands[NearestIdx(cands, q.openPrice)])
    ensures r == Nearest(rows, q)
  {
    var orders := Where(rows, (o: Order) => NearestCandidate(q, o));
    if |orders| == 0 {
      return None;
    }
    var norder := ZeroOrder;
    var i := 0;
    while i < |orders|
      invariant 0 <= i <= |orders|
      invariant i == 0 ==> norder == ZeroOrder
      invariant i > 0 ==> norder == orders[NearestIdx(orders[..i], q.openPrice)]
    {
      var order := orders[i];
      assert orders[..i + 1][..i] == orders[..i];
      if norder.openPrice == 0.0 || Abs(order.openPrice - q.openPrice) < Abs(norder.openPrice - q.openPrice) {
        norder := order;
      }
      i := i + 1;
    }
    assert orders[..i] == orders;
    return Some(norder);
  }

  /** The nearest row is one of the candidates and, when all candidates are priced, no candidate is
      strictly closer to the query's open price. */
  lemma NearestOrderIsClosest(rows: seq<Order>, q: Query)
    requires var cands := Where(rows, (o: Order) => NearestCandidate(q, o));
             |cands| > 0 && forall o :: o in cands ==> o.openPrice != 0.0
    ensures var cands := Where(rows, (o: Order) => NearestCandidate(q, o));
            var n := cands[NearestIdx(cands, q.openPrice)];
            n in rows && NearestCandidate(q, n)
            && forall o :: o in rows && NearestCandidate(q, o) ==> Distance(n, q.openPrice) <= Distance(o, q.openPrice)
  {
    var cands := Where(rows, (o: Order) => NearestCandidate(q, o));
    NearestIsClosest(cands, q.openPrice);
    var k := NearestIdx(cands, q.openPrice);
    forall o | o in rows && NearestCandidate(q, o)
      ensures Distance(cands[k], q.openPrice) <= Distance(o, q.openPrice)
    {
      assert o in cands;
      var i :| 0 <= i < |cands| && cands[i] == o;
    }
  }

  // ---------------------------------------------------------------------------------------------
  // Writes

  /** The table after `Updates`: every row with the order's id replaced by the order. */
  function Replace(rows: seq<Order>, o: Order): (r: seq<Order>)
    ensures |r| == |rows|
    ensures forall i :: 0 <= i < |rows| ==> r[i] == (if rows[i].id == o.id then o else rows[i])
  {
    if |rows| == 0 then [] else [if rows[0].id == o.id then o else rows[0]] + Replace(rows[1..], o)
  }

  /** After an update, looking the id up finds the updated order, provided a row had that id. */
  lemma ReplaceThenGet(rows: seq<Order>, o: Order)
    requires o.id != "" && exists x :: x in rows && x.id == o.id
    ensures GetOrderByID(Replace(rows, o), o.id) == Some(o)
  {
    var x :| x in rows && x.id == o.id;
    var r := Replace(rows, o);
    var i :| 0 <= i < |rows| && rows[i] == x;
    assert r[i] == o;
    SingleIdAfterReplace(rows, o);
  }

  /** Every row carrying the order's id is the order itself after the update. */
  lemma SingleIdAfterReplace(rows: seq<Order>, o: Order)
    ensures forall x :: x in Replace(rows, o) && x.id == o.id ==> x == o
  {
    var r := Replace(rows, o);
    forall x | x in r && x.id == o.id ensures x == o {
      var i :| 0 <= i < |r| && r[i] == x;
    }
  }

  /** Looking up a row by id is unaffected by updates of other ids. */
  lemma ReplaceKeepsOthers(rows: seq<Order>, o: Order, id: string)
    requires id != o.id
    ensures forall x :: x in Replace(rows, o) && x.id == id <==> x in rows && x.id == id
  {
    var r := Replace(rows, o);
    forall x ensures x in r && x.id == id <==> x in rows && x.id == id {
      if x in r && x.id == id {
        var i :| 0 <= i < |r| && r[i] == x;
        assert rows[i] == x;
      }
      if x in rows && x.id == id {
        var i :| 0 <= i < |rows| && rows[i] == x;
        assert r[i] == x;
      }
    }
  }

  /** Updating a row twice with the same order is the same as updating it once. */
  lemma ReplaceIdempotent(rows: seq<Order>, o: Order)
    ensures Replace(Replace(rows, o), o) == Replace(rows, o)
  {
    var r := Replace(rows, o);
    assert forall i :: 0 <= i < |r| ==> Replace(r, o)[i] == r[i];
  }

  /** Two tables that agree on which rows are kept, and on the kept rows themselves, have the same
      first kept row. */
  lemma {:induction false} FirstWhereAgree(a: seq<Order>, b: seq<Order>, keep: Order -> bool)
    requires |a| == |b|
    requires forall i :: 0 <= i < |a| ==> keep(a[i]) == keep(b[i])
    requires forall i :: 0 <= i < |a| && keep(a[i]) ==> a[i] == b[i]
    ensures FirstWhere(a, keep) == FirstWhere(b, keep)
  {
    if |a| > 0 && !keep(a[0]) {
      assert forall i :: 0 <= i < |a[1..]| ==> a[1..][i] == a[i + 1] && b[1..][i] == b[i + 1];
      FirstWhereAgree(a[1..], b[1..], keep);
    }
  }

  /** An update of one id leaves every lookup of another id unchanged. */
  lemma GetAfterReplaceOther(rows: seq<Order>, o: Order, id: string)
    requires id != o.id
    ensures GetOrderByID(Replace(rows, o), id) == GetOrderByID(rows, id)
  {
    FirstWhereAgree(Replace(rows, o), rows, (x: Order) => x.id == id);
  }

  /** Updates never add, remove or reorder rows, and keep every row's id. */
  predicate SameIds(before: seq<Order>, after: seq<Order>) {
    |before| <= |after| && forall i :: 0 <= i < |before| ==> after[i].id == before[i].id
  }

  lemma SameIdsTrans(a: seq<Order>, b: seq<Order>, c: seq<Order>)
    requires SameIds(a, b) && SameIds(b, c)
    ensures SameIds(a, c)
  {
  }

  lemma ReplaceSameIds(rows: seq<Order>, o: Order)
    ensures SameIds(rows, Replace(rows, o)) && |Replace(rows, o)| == |rows|
  {
  }

  /** The order table. CreateOrder inserts a row at the end; UpdateOrder replaces the row with the
      order's id. Store errors are not modelled: both writes succeed. */
  class OrderStore {
    var rows: seq<Order>

    constructor(initial: seq<Order>)
      ensures rows == initial
    {
      rows := initial;
    }

    method CreateOrder(o: Order)
      modifies this
      ensures rows == old(rows) + [o]
    {
      rows := rows + [o];
    }

    method UpdateOrder(o: Order)
      modifies this
      ensures rows == Replace(old(rows), o)
    {
      rows := Replace(rows, o);
    }
  }

  /** A created order with a fresh id is found by id afterwards. */
  lemma CreateThenGet(rows: seq<Order>, o: Order)
    requires o.id != "" && forall x :: x in rows ==> x.id != o.id
    ensures GetOrderByID(rows + [o], o.id) == Some(o)
  {
    assert forall x :: x in rows + [o] && x.id == o.id ==> x == o;
  }
}
