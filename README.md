# autotp core, modelled in Dafny

autotp is an automated trading bot. Strategies look at a ticker, price history and the bot's own
order table. On each tick they propose a batch of trade orders: open orders, close orders (stop-loss
and take-profit orders that point at a filled parent position) and cancel orders. Three strategies
are modelled:

- the grid strategy, which quotes a BUY at the lower bound and a SELL at the upper bound of the grid
  zone around the price;
- the daily strategy, which is trend-following with protective stops;
- the scalping strategy, which uses moving-average signals.

The robot then reconciles the order table with the exchange. It syncs the status of each order,
cancels stale orders, pairs filled protective orders with their parents, records realised P/L, and
places the new batch as maker (LIMIT) or taker (MARKET). The spot grid bot runs its own loop: it
validates the configuration, gates each tick, and places the grid batch either as limit orders with a
capped take-profit ladder, or as market orders closed at the best bid.

The order table is modelled as a sequence of rows, and every query of the store is a function over
it. The store itself is a class whose `rows` field the robot and the bot update in place.

Modules, one per file:

- `Types`: the order record and the enumerations.
- `Util`: the numeric helpers: rounding, stop prices and side reversal.
- `GridRange`: the grid zone arithmetic.
- `Store`: the order table's queries, the nearest-order selection loop, and the store class.
- `Gateway`: the exchange calls the robot makes, as a value.
- `GridStrategy`, `Daily`, `Scalping`: the strategies' `OnTick`.
- `Robot`: the reconciliation engine.
- `SpotGrid`: the spot grid bot's main loop.

Prices and quantities are exact reals. `math.Round` is rounding half away from zero, and
`NormalizeDouble`/`round` are modelled with it exactly.

The clock, ID generation, the exchange's answers and the technical indicators are parameters of the
model:

- The clock is `now`.
- `GenID` is a single identifier per tick, or a function of the order for the grid bot.
- The exchange's answers are maps and functions in `Gateway.Exchange` and `SpotGrid.Venue`.
- The technical indicators are inputs of each tick.

Runtime failures that end the grid bot's process (`os.Exit`, a panic, a nil dereference) are
modelled as a `halted` outcome that stops the tick.

`GetGridRange` is called by `strategy/grid/grid.go` but its own source file is not part of this
model. It is modelled by this algorithm:

- a price on a grid line gets the zone one width either side of it;
- any other price gets the cell that contains it.

Its seven test cases in `helper/grid_test.go` are proved as lemmas.

## Model

| member | source | states |
|---|---|---|
| Util.RoundHalfAway | helper/util.go:65 | math.Round: the integer within one half of x, with halves going away from zero |
| Util.RoundTo | helper/util.go:68-70 | round(number, pow) scales back to the rounded integer and lies within half a step 1/pow of the input |
| Util.RoundToOnGrid | helper/util.go:68-70 | a rounded value is a whole multiple of 1/pow |
| Util.RoundToFixesGrid | helper/util.go:68-70 | rounding leaves a value already on the 1/pow grid unchanged |
| Util.NormalizeDouble | helper/util.go:63-66 | the result lies on the 10^-digits grid, within half a step of the input |
| Util.WholeIsNormal | helper/util.go:63-66 | with non-negative digits, a whole number is returned unchanged |
| Util.NormalizeIdempotent | helper/util.go:63-66 | normalising twice equals normalising once |
| Util.EffectiveGap | helper/util.go:32-34 | a zero gap becomes the default 500 points; any other gap is kept |
| Util.ShiftUp | helper/util.go:35-37 | moving up by gap points and rounding lands on the grid within half a step of the exact target, and exactly on it for grid inputs |
| Util.ShiftDown | helper/util.go:35-39 | the downward mirror of ShiftUp |
| Util.CalcSLStop | helper/util.go:31-40 | the stop lies `gap` points above sl for BUY and below it otherwise, rounded to the digits |
| Util.CalcTPStop | helper/util.go:43-52 | the mirror: below tp for BUY, above it otherwise |
| Util.StopPricesExact | helper/util.go:31-52 | for a price on the grid the four stops are exactly price ± gap points, and the SL stops enclose the price |
| Util.Reverse | helper/util.go:55-60 | BUY gives SELL; anything else gives BUY |
| Util.ReverseInvolution | helper/util.go:55-60 | reversing twice returns BUY or SELL unchanged |
| Util.TruncDiv | robot/robot.go:258 | Go int64 division by a positive divisor truncates toward zero |
| GridRange.Width | helper/grid_test.go:8-12 | the grid width is positive and `grids` widths span the band |
| GridRange.GetGridRange | strategy/grid/grid.go:24 | on a grid line, the zone is price ± width; otherwise it is the cell strictly containing the price, starting on a grid line |
| GridRange.ZoneBracketsPrice | strategy/grid/grid.go:24 | the zone always strictly brackets the price |
| GridRange.GridRangeIsCell | helper/grid_test.go:7-45 | a price strictly inside the k-th cell gets exactly that cell |
| GridRange.GridCase554 | helper/grid_test.go:9-12 | 554 in [500,800] with 60 grids gives (550, 555, width 5) |
| GridRange.GridCase555 | helper/grid_test.go:13-16 | 555 gives (550, 560) |
| GridRange.GridCase556 | helper/grid_test.go:17-20 | 556 gives (555, 560) |
| GridRange.GridCase22 | helper/grid_test.go:23-26 | 22 in [10,110] with 10 grids gives (20, 30) |
| GridRange.GridCase164 | helper/grid_test.go:29-32 | 164 in [10,202] with 24 grids gives (162, 170) |
| GridRange.GridCase71 | helper/grid_test.go:35-38 | 71 in [10,136] with 18 grids gives (66, 73) |
| GridRange.GridCase90 | helper/grid_test.go:41-44 | 90 in [10,94] with 14 grids gives (88, 94) |
| Store.Where | rdb/rdb.go:100-106 | a filter keeps exactly the rows that match, each as often as the table holds it |
| Store.FirstWhere | rdb/rdb.go:42-50 | `First`: absent exactly when nothing matches, else the earliest matching row |
| Store.Insert | rdb/rdb.go:128-155 | inserting into a sorted list keeps it sorted and adds exactly one row |
| Store.OrderBy | rdb/rdb.go:128-155 | ORDER BY gives a sorted permutation of the selection |
| Store.Top | rdb/rdb.go:52-63 | `Order(..).Limit(1).Find`: absent iff nothing matches, else a matching row ahead of every match |
| Store.SortedMembers | rdb/rdb.go:128-155 | sorting keeps exactly the same rows |
| Store.IsEmptyZone | rdb/rdb.go:32-40 | a taken zone has a priced matching row; with priced rows, free iff no row matches |
| Store.GetOrderByID | rdb/rdb.go:42-50 | absent iff the id is empty or unknown; else a row with that id |
| Store.GetHighestNewBuyOrder | rdb/rdb.go:52-63 | the open NEW LIMIT BUY row with the greatest zone price, absent iff none |
| Store.GetLowestFilledBuyOrder | rdb/rdb.go:65-76 | the open FILLED LIMIT/MARKET BUY row with the least zone price, absent iff none |
| Store.GetActiveLimitOrders | rdb/rdb.go:78-98 | exactly the active LIMIT/MARKET rows of the side; BUY ascending and SELL descending by zone |
| Store.GetActiveOrders | rdb/rdb.go:100-106 | exactly the bot's rows that are neither canceled nor closed |
| Store.GetLimitOrder | rdb/rdb.go:108-126 | a found row is an active LIMIT row within the slippage band with a price; with priced rows, absent iff none matches |
| Store.GetLimitOrders | rdb/rdb.go:128-155 | exactly the active LIMIT rows of the side, newest first with an open time, else by zone price |
| Store.GetFilledLimitBuyOrders | rdb/rdb.go:157-165 | exactly the open FILLED LIMIT BUY rows, newest first |
| Store.GetFilledLimitLongOrders | rdb/rdb.go:167-175 | exactly the open FILLED LIMIT LONG rows, newest first |
| Store.GetFilledLimitShortOrders | rdb/rdb.go:177-185 | exactly the open FILLED LIMIT SHORT rows, newest first |
| Store.GetNewLimitLongOrders | rdb/rdb.go:187-195 | exactly the open NEW LIMIT LONG rows, newest first |
| Store.GetNewLimitShortOrders | rdb/rdb.go:197-205 | exactly the open NEW LIMIT SHORT rows, newest first |
| Store.GetNewStopLongOrders | rdb/rdb.go:207-215 | exactly the open NEW STOP/TAKE_PROFIT LONG rows, newest first |
| Store.GetNewStopShortOrders | rdb/rdb.go:217-225 | exactly the open NEW STOP/TAKE_PROFIT SHORT rows, newest first |
| Store.GetNewOrders | rdb/rdb.go:227-233 | exactly the bot's NEW rows, closed ones included, newest first |
| Store.GetNewBuyOrders | rdb/rdb.go:235-241 | exactly the bot's NEW BUY rows |
| Store.GetHighestNewLongOrder | rdb/rdb.go:243-254 | the NEW LIMIT LONG row with the greatest open price, absent iff none |
| Store.GetLowestNewShortOrder | rdb/rdb.go:256-267 | the NEW LIMIT SHORT row with the least open price, absent iff none |
| Store.GetSLOrder | rdb/rdb.go:269-278 | a found row is a non-canceled stop-loss of the parent; with ids present, absent iff none |
| Store.GetTPOrder | rdb/rdb.go:280-289 | the same for take-profits |
| Store.GetTPOrders | rdb/rdb.go:291-297 | exactly the active TAKE_PROFIT_LIMIT rows, ascending by open price |
| Store.GetLowestTPOrder | rdb/rdb.go:299-306 | the active TP row with the least price, absent iff none |
| Store.GetHighestTPOrder | rdb/rdb.go:308-315 | the active TP row with the greatest price, absent iff none |
| Store.LowestTPNotAboveHighest | rdb/rdb.go:299-315 | both exist together and lowest ≤ highest |
| Store.GetHighestSLLongOrder | rdb/rdb.go:317-328 | the active STOP LONG row with the greatest price, absent iff none |
| Store.GetLowestSLShortOrder | rdb/rdb.go:330-341 | the active STOP SHORT row with the least price, absent iff none |
| Store.GetLowestTPLongOrder | rdb/rdb.go:343-354 | the active TAKE_PROFIT LONG row with the least price, absent iff none |
| Store.GetHighestTPShortOrder | rdb/rdb.go:356-367 | the active TAKE_PROFIT SHORT row with the greatest price, absent iff none |
| Store.GetNewSLOrders | rdb/rdb.go:369-375 | exactly the NEW STOP_LOSS_LIMIT rows, ascending by price |
| Store.GetNewTPOrders | rdb/rdb.go:377-383 | exactly the NEW TAKE_PROFIT_LIMIT rows, each as often as the table holds it, descending by price |
| Store.NearestIdx | rdb/rdb.go:390-398 | the selection loop's pick is a valid index of the candidates |
| Store.NearestIsClosest | rdb/rdb.go:390-398 | with priced candidates the pick is strictly closer than earlier ones and no farther than later ones |
| Store.Nearest | rdb/rdb.go:385-400 | absent iff the side has no active row; else an active row of that side |
| Store.GetNearestOrder | rdb/rdb.go:385-400 | the loop returns nothing for no candidates, else the candidate the selection rule settles on |
| Store.NearestOrderIsClosest | rdb/rdb.go:385-400 | with priced candidates no active row of the side is strictly closer to the query price |
| Store.Replace | rdb/rdb.go:408-410 | Updates replaces every row with the order's id and nothing else |
| Store.ReplaceThenGet | rdb/rdb.go:408-410 | after an update the id looks up the updated order |
| Store.SingleIdAfterReplace | rdb/rdb.go:408-410 | every row with that id is the new order |
| Store.ReplaceKeepsOthers | rdb/rdb.go:408-410 | rows of other ids are untouched |
| Store.ReplaceIdempotent | rdb/rdb.go:408-410 | updating twice equals updating once |
| Store.GetAfterReplaceOther | rdb/rdb.go:408-410 | lookups of other ids are unchanged by an update |
| Store.ReplaceSameIds | rdb/rdb.go:408-410 | an update keeps every row's place and id |
| Store.OrderStore.CreateOrder | rdb/rdb.go:403-406 | appends the order as the last row |
| Store.OrderStore.UpdateOrder | rdb/rdb.go:408-410 | the rows become Replace of the old rows |
| Store.CreateThenGet | rdb/rdb.go:403-406 | a created order with a fresh id is found by id |
| Gateway.GetOrder | exchange/binance/spot/spot.go:414-421 | the venue's snapshot iff it knows the order |
| Gateway.CancelOrder | exchange/binance/spot/spot.go:384-412 | succeeds iff the venue cancels; the answer is CANCELED stamped now |
| Gateway.GetCommission | exchange/binance/spot/spot.go:243-274 | the commission of the first trade with the venue id, absent iff none |
| Gateway.OpenLimitOrder | exchange/binance/spot/spot.go:276-310 | only LIMIT orders, and only NEW or FILLED answers, are accepted |
| Gateway.OpenStopOrder | exchange/binance/spot/spot.go:312-342 | only orders of the client's stop types are sent, and each of them gets the venue's answer |
| Gateway.SpotStopOrder | exchange/binance/spot/spot.go:312-315 | the spot client sends STOP_LOSS_LIMIT and TAKE_PROFIT_LIMIT orders and refuses every other type |
| Gateway.OpenMarketOrder | exchange/binance/spot/spot.go:344-382 | only MARKET orders are sent |
| GridStrategy.ToUpper | strategy/grid/grid.go:34 | upper-cases each ASCII letter and keeps the length |
| GridStrategy.ToUpperIdempotent | strategy/grid/grid.go:34 | upper-casing is idempotent |
| GridStrategy.ViewIgnoresCase | strategy/grid/grid.go:34-50 | a view and its upper-cased form allow the same sides |
| GridStrategy.ViewAbbreviations | strategy/grid/grid.go:36-50 | "n" allows both sides, "l" only long, "short" only short |
| GridStrategy.BuyLeg | strategy/grid/grid.go:36-48 | the BUY intent at the zone's lower bound, with stops only when no active BUY is near |
| GridStrategy.SellLeg | strategy/grid/grid.go:50-62 | the SELL intent at the upper bound, with mirrored stops; stops it does not set keep the BUY leg's value |
| GridStrategy.OnTick | strategy/grid/grid.go:17-67 | a BUY iff the view allows long; a SELL iff short is allowed and no active SELL is near; no closes or cancels; BUY below and SELL above the price |
| GridStrategy.StopsBracketIntent | strategy/grid/grid.go:40-58 | with positive multipliers a BUY sits between its SL below and TP above, and a SELL the other way |
| Daily.OpenQty | strategy/daily/daily.go:45-48 | the base quantity, raised to the rounded quote amount's worth when larger |
| Daily.Make | strategy/daily/daily.go:59-71 | a protective intent is NEW, of the parent's quantity and points at the parent |
| Daily.Count | strategy/daily/daily.go:53-97 | the number of intents is zero iff no parent is kept, and all the parents iff every parent is kept |
| Daily.Protect | strategy/daily/daily.go:53-97 | one intent per parent the rule keeps |
| Daily.ProtectExactlyKept | strategy/daily/daily.go:53-97 | every intent protects a kept parent, and every kept parent is protected |
| Daily.ProtectOnePerParent | strategy/daily/daily.go:53-97 | with distinct ids, each kept parent gets exactly one intent |
| Daily.AppendIntents | strategy/daily/daily.go:55-73 | the loop builds exactly Protect |
| Daily.UpLadder | strategy/daily/daily.go:68-91 | stops moved up by a ≥ 1 and b ≥ a + 2 points stay ordered above the price |
| Daily.DownLadder | strategy/daily/daily.go:140-163 | the downward mirror |
| Daily.StopLadder | strategy/daily/daily.go:68-163 | a BUY SL stops above the price and is limited higher; a SELL TP likewise; the mirrors below |
| Daily.AppendTrendCloses | strategy/daily/daily.go:53-97 | the loops of one trend build its stop-losses and then its take-profits |
| Daily.LongEntry | strategy/daily/daily.go:100-119 | a BUY limit intent iff long is allowed, the price dipped and there is room |
| Daily.ShortEntry | strategy/daily/daily.go:172-191 | the SELL mirror |
| Daily.OnTick | strategy/daily/daily.go:17-198 | the method's batch is the tick specification |
| Daily.NoBatchIffIncomplete | strategy/daily/daily.go:25-28 | no batch iff the newest bar has a zero price; batches never cancel |
| Daily.NeutralTrendEmpty | strategy/daily/daily.go:51-123 | between the trend levels the batch is empty |
| Daily.UptrendStopLossPerShort | strategy/daily/daily.go:51-97 | in an uptrend, with auto take-profit on or off, each unprotected SELL position whose id no other position shares gets exactly one close intent, a BUY stop-loss of its quantity |
| Daily.DowntrendStopLossPerLong | strategy/daily/daily.go:123-169 | in a downtrend, with auto take-profit on or off, each unprotected BUY position whose id no other position shares gets exactly one close intent, a SELL stop-loss of its quantity |
| Daily.CloseIntentsProtectParents | strategy/daily/daily.go:53-169 | every close intent protects a filled opposite position; a TP only past the volatility distance |
| Daily.TrendParent | strategy/daily/daily.go:51-169 | each intent of a trend comes from its SL or TP rule for a kept parent |
| Daily.ParentOf | strategy/daily/daily.go:55-73 | each intent of a rule names the kept parent it was made for |
| Daily.OpenGates | strategy/daily/daily.go:100-119 | in an uptrend a BUY limit is opened iff the entry gates hold, with at least the base quantity |
| Daily.OpenGatesSell | strategy/daily/daily.go:171-191 | in a downtrend a SELL limit is opened iff the view allows short, the price is above the previous low by the margin and above the previous close, and there is room; it has at least the base quantity |
| Scalping.HighestHigh | strategy/scalping/scalping.go:114-117 | the larger of the two previous highs |
| Scalping.LowestLow | strategy/scalping/scalping.go:118-121 | the smaller of the two previous lows |
| Scalping.EntryQty | strategy/scalping/scalping.go:83-87 | the larger of the rounded base and quote quantities |
| Scalping.Entry | strategy/scalping/scalping.go:146-159 | a NEW LIMIT entry at the price, of the entry quantity, LONG/SHORT only on futures |
| Scalping.CancelSide | strategy/scalping/scalping.go:37-43 | the side's NEW stop rows, then its NEW limit rows |
| Scalping.OpenSide | strategy/scalping/scalping.go:140-186 | the entry is appended iff the nearest same-side order leaves the gap clear |
| Scalping.FlagStep | strategy/scalping/scalping.go:35-50 | the close-flag branch builds the flag batch |
| Scalping.EntryStep | strategy/scalping/scalping.go:140-186 | the entry branch builds the entries of the signals |
| Scalping.SignalStep | strategy/scalping/scalping.go:67-190 | once no close flag or opposite close applies, the batch is no batch on missing history, the protective closes when there are any, and otherwise the entries of the signals (nothing when both entry signals hold) |
| Scalping.OnTick | strategy/scalping/scalping.go:26-190 | the method's batch is the tick specification |
| Scalping.FlagsShortCircuit | strategy/scalping/scalping.go:35-50 | with a close flag set: no entries, the flagged sides' closes, and exactly their pending rows canceled |
| Scalping.OppositeCancelsOneSide | strategy/scalping/scalping.go:52-65 | opposite closes come with the cancels of the side the first close names |
| Scalping.SideCancelsIffPending | strategy/scalping/scalping.go:37-43 | a side's cancels are exactly its pending NEW stop and limit rows |
| Scalping.NoBatchWithoutHistory | strategy/scalping/scalping.go:67-127 | missing signal or one-minute bars give no batch |
| Scalping.ProtectiveClosesOnly | strategy/scalping/scalping.go:89-105 | protective closes, when there are any, are the whole batch |
| Scalping.SignalsExclusive | strategy/scalping/scalping.go:130-138 | an entry signal excludes its side's close, and the two entries exclude each other |
| Scalping.AtMostOneEntry | strategy/scalping/scalping.go:136-190 | at most one entry, and only without closes or cancels |
| Scalping.BuyEntryIff | strategy/scalping/scalping.go:140-162 | a BUY entry iff the long signal, the view and the gap allow it; it is the LIMIT entry at the lower ticker |
| Scalping.SellEntryIff | strategy/scalping/scalping.go:164-186 | the SELL mirror |
| Scalping.EntryPosSide | strategy/scalping/scalping.go:157-159 | entries carry LONG/SHORT on futures and no position side on spot |
| Robot.IsTraded | robot/robot.go:326-332 | true iff the order is open, FILLED and its venue id is in the trade list |
| Robot.Adopt | robot/robot.go:283-324 | copies status and update time, closes canceled-like orders now, records a reported commission on a fill, and changes nothing else |
| Robot.SyncStatus | robot/robot.go:250-333 | the table and the answer follow the sync specification |
| Robot.SyncTouchesOwnRow | robot/robot.go:250-333 | the sync only touches the order's own row and keeps its identity |
| Robot.SyncWritesOnlyOnChange | robot/robot.go:250-301 | nothing is written when the lookup fails, when a NEW order is still in time or its cancel fails, or when the local status already equals the venue's non-NEW status; any write comes from a confirmed cancel of a timed-out NEW order or from a differing status |
| Robot.SyncTradedIff | robot/robot.go:250-333 | traded iff the venue knows the order, not as NEW, and the updated copy is a confirmed fill |
| Robot.SyncCancelsStale | robot/robot.go:257-281 | a timed-out NEW order the venue cancels is recorded CANCELED, closed now, not traded |
| Robot.SyncAdoptsStatus | robot/robot.go:283-324 | a differing non-NEW venue status is taken over and stored |
| Robot.SyncIdempotent | robot/robot.go:250-333 | a second sync of the updated copy changes nothing |
| Robot.RealizedPL | robot/robot.go:349 | P/L plus both commissions equals the price move times quantity, signed by direction |
| Robot.ClosePosition | robot/robot.go:335-465 | the table becomes the pairing specification |
| Robot.PLExample | robot/robot.go:411 | a long from 100 to 110 for one unit makes 10; a short loses 10 |
| Robot.PLRounded | robot/robot.go:349 | the recorded P/L is on the price grid within half a step of the exact one |
| Robot.PairWithoutParent | robot/robot.go:336-344 | without a parent only the protective order is closed |
| Robot.PairClosesBoth | robot/robot.go:335-364 | with a parent both are closed now and the parent records the close order, price and P/L |
| Robot.PairKeepsOtherRows | robot/robot.go:335-465 | pairing changes no row other than the two |
| Robot.SyncOrderAsWritten | robot/robot.go:202-212 | a selector as written: the pre-sync copy goes to the pairing |
| Robot.SyncOrder | robot/robot.go:163-248 | a selector, corrected: the synced copy goes to the pairing |
| Robot.StaleCopyRevertsStatus | robot/robot.go:202-248 | as written a filled protective order is written back NEW; corrected it is FILLED with the venue's commission |
| Robot.StaleCopyMisstatesPL | robot/robot.go:202-361 | as written the parent's P/L nets the protective order's pre-sync commission; corrected it nets the commission the venue reports for the fill |
| Robot.SyncOrderSameIds | robot/robot.go:163-248 | a selector keeps every row's place and id |
| Robot.SyncAllSameIds | robot/robot.go:17-28 | running the selectors keeps every row's place and id |
| Robot.Selectors | robot/robot.go:17-28 | spot syncs the limit buy then the TP; futures syncs six selectors in order |
| Robot.CancelOrders | robot/robot.go:38-79 | the table becomes the cancel fold |
| Robot.CancelStepSettles | robot/robot.go:38-79 | an answered cancel leaves the row not NEW and closed now unless FILLED |
| Robot.CancelAllFrame | robot/robot.go:38-79 | only rows of orders in the batch change |
| Robot.CloseOrders | robot/robot.go:81-103 | the table becomes the close fold |
| Robot.CloseAllAppends | robot/robot.go:81-103 | the old rows stay a prefix and each new row is a batch order of a stop type the client sends, as the venue acknowledged it |
| Robot.OpenLimitOrders | robot/robot.go:105-128 | the table becomes the limit fold |
| Robot.OpenLimitAllAppends | robot/robot.go:105-128 | the old rows stay a prefix and each new row is an accepted LIMIT from the batch, NEW or FILLED |
| Robot.MarketQty | robot/robot.go:132-135 | the order's quantity, raised to the quote amount's worth when larger |
| Robot.OpenMarketOrders | robot/robot.go:130-161 | the table becomes the market fold |
| Robot.MarketRecordFacts | robot/robot.go:136-148 | a MARKET row with the venue's id and status; the fill's price and quantity when reported |
| Robot.OpenMarketAllAppends | robot/robot.go:130-161 | the old rows stay a prefix and new rows are the batch's market records |
| Robot.SyncSpot | robot/robot.go:18-20 | the spot syncs run the limit buy then the TP selector |
| Robot.SyncFutures | robot/robot.go:21-28 | the futures syncs run the six selectors in order |
| Robot.PlaceAsMaker | robot/robot.go:17-32 | syncs, then cancels, closes and limit opens |
| Robot.PlaceAsTaker | robot/robot.go:34-36 | market opens only |
| Robot.Trade | robot/robot.go:9-15 | LIMIT bots place as maker, MARKET bots as taker, others do nothing |
| Robot.TradeKeepsRows | robot/robot.go:9-15 | a tick never deletes or reorders rows |
| Robot.TakerOnlyAppendsMarket | robot/robot.go:34-36 | a taker tick only appends MARKET rows |
| SpotGrid.ValidateConfig | robot/binance/spot/grid/main.go:85-94 | each error iff its check is the first to fail |
| SpotGrid.ValidConfigAllowsGrid | robot/binance/spot/grid/main.go:85-94 | a valid configuration has a quantity, a grid zone for every price, and at least two cells |
| SpotGrid.TickGate | robot/binance/spot/grid/main.go:133-158 | a skipped tick or a missing batch changes nothing; with an active order a positive price is never skipped |
| SpotGrid.LimitSized | robot/binance/spot/grid/main.go:165-169 | a fresh id and the larger of the intent's quantity and the configured quote amount's worth (the corrected half of the third Findings row) |
| SpotGrid.OpenLimitRecords | robot/binance/spot/grid/main.go:164-193 | an accepted open is the last row with the venue's fields; a refused one ends the run |
| SpotGrid.OpenLimitLoop | robot/binance/spot/grid/main.go:164-193 | the table and halt flag are the open fold |
| SpotGrid.CapTP | robot/binance/spot/grid/main.go:243-271 | a cap that lets the parent through keeps every row in place with its id |
| SpotGrid.CapCancelsHighest | robot/binance/spot/grid/main.go:243-271 | below two NEW TPs nothing changes; otherwise the highest is canceled unless below the target, when the parent waits |
| SpotGrid.CapOne | robot/binance/spot/grid/main.go:243-271 | the method follows CapTP |
| SpotGrid.TPRead | robot/binance/spot/grid/main.go:273-281 | prices iff there are four asks; stop is the second ask and sell the fourth |
| SpotGrid.AsksGuardFinding | robot/binance/spot/grid/main.go:273-281 | the written guard fails on a two-ask book; both reads agree on books with none or four or more asks |
| SpotGrid.TPFor | robot/binance/spot/grid/main.go:283-295 | the TP is on the reversed side, of the parent's quantity, points at the parent, at the book's prices |
| SpotGrid.PlaceTPAdds | robot/binance/spot/grid/main.go:241-316 | a TP row is added iff wanted, let through, priced by the book at the target and accepted, and it has the TP's fields |
| SpotGrid.PlaceAtBookAdds | robot/binance/spot/grid/main.go:273-316 | past the cap, a TP row is appended iff the book has four asks, the fourth reaches the target and the venue accepts; nothing else changes |
| SpotGrid.PlaceAtBookOne | robot/binance/spot/grid/main.go:273-316 | the method follows PlaceAtBook |
| SpotGrid.PlaceTPOne | robot/binance/spot/grid/main.go:241-316 | the method follows PlaceTP |
| SpotGrid.Synced | robot/binance/spot/grid/main.go:207-209 | the venue's status is taken over; identity and prices are kept; an equal status changes nothing |
| SpotGrid.SyncedRows | robot/binance/spot/grid/main.go:207-214 | the sync keeps every row in place with its id |
| SpotGrid.SyncStatusOne | robot/binance/spot/grid/main.go:207-214 | the method follows Synced and SyncedRows |
| SpotGrid.SyncLimitOne | robot/binance/spot/grid/main.go:196-317 | the method follows the LIMIT sync step |
| SpotGrid.SyncLimitLoop | robot/binance/spot/grid/main.go:196-317 | the table and halt flag are the sync fold |
| SpotGrid.ClosedByTP | robot/binance/spot/grid/main.go:353-357 | the parent records the TP's id and price, the close time and the rounded P/L net of commissions |
| SpotGrid.CloseParentCloses | robot/binance/spot/grid/main.go:352-372 | a found parent is closed iff not closed yet and the price is above the TP's |
| SpotGrid.CloseParentOne | robot/binance/spot/grid/main.go:352-372 | the method follows CloseParent |
| SpotGrid.SyncTPClosesParent | robot/binance/spot/grid/main.go:320-373 | a synced filled TP closes its open parent when the price is above it, else leaves it |
| SpotGrid.ParentClosedOnce | robot/binance/spot/grid/main.go:352-357 | a closed parent is not changed again by another TP |
| SpotGrid.SyncTPOne | robot/binance/spot/grid/main.go:320-373 | the method follows the TP sync step |
| SpotGrid.SyncTPLoop | robot/binance/spot/grid/main.go:320-373 | the table and halt flag are the TP-sync fold |
| SpotGrid.PlaceAsLimit | robot/binance/spot/grid/main.go:162-374 | the table and halt flag are the limit specification |
| SpotGrid.MarketSized | robot/binance/spot/grid/main.go:388-393 | a fresh id, the larger of the intent's quantity and the configured quote amount's worth at the best ask, the MARKET type (the corrected half of the third Findings row) |
| SpotGrid.LoopEnv | robot/binance/spot/grid/main.go:118-125 | the loops see a quote amount of zero, because their parameter record is built without it |
| SpotGrid.QuoteQtyFinding | robot/binance/spot/grid/main.go:164-170 | as written an opening order carries the intent's quantity whatever quote amount is configured; sized from the configured amount it is worth at least that amount |
| SpotGrid.QuoteQtyExample | robot/binance/spot/grid/main.go:85-94 | a configuration with no base quantity and a quote amount of 100 passes validation, then the loop sends quantity 0 where the configured amount asks for 10 |
| SpotGrid.MarketOpenGate | robot/binance/spot/grid/main.go:378-419 | a row is added only when the best ask allows and the venue fills, as a MARKET row with the fill |
| SpotGrid.OpenMarketOne | robot/binance/spot/grid/main.go:378-419 | the method follows the market open step |
| SpotGrid.OpenMarketLoop | robot/binance/spot/grid/main.go:378-419 | the table and halt flag are the market open fold |
| SpotGrid.MarketTPFor | robot/binance/spot/grid/main.go:433-443 | the market TP is on the reversed side, of the parent's quantity, points at the parent |
| SpotGrid.MarketTPGate | robot/binance/spot/grid/main.go:422-482 | the market TP fires only for a wanting parent with the bid at the target, and closes the parent at the fill |
| SpotGrid.TakeAtBidOne | robot/binance/spot/grid/main.go:433-471 | the method follows TakeAtBid |
| SpotGrid.MarketTPOne | robot/binance/spot/grid/main.go:422-482 | the method follows the market TP step |
| SpotGrid.MarketTPLoop | robot/binance/spot/grid/main.go:422-482 | the table and halt flag are the market TP fold |
| SpotGrid.PlaceAsMarket | robot/binance/spot/grid/main.go:376-483 | the table and halt flag are the market specification |
| SpotGrid.Tick | robot/binance/spot/grid/main.go:133-158 | the table and halt flag are the tick specification |
| SpotGrid.FoldStaysHalted | robot/binance/spot/grid/main.go:162-483 | after a halt the rest of a loop does nothing |
| SpotGrid.FoldSameIds | robot/binance/spot/grid/main.go:162-483 | a loop keeps every row in place with its id |
| SpotGrid.TickSameIds | robot/binance/spot/grid/main.go:133-158 | a tick never deletes a row or changes a row's id |

## Left out

- Store.OrderStore.UpdateOrder: gorm `Updates` skips zero-valued fields. The model replaces the whole row, so resetting a field to zero is not captured. Store errors are not modelled: create and update always succeed.
- Store.Insert, Store.OrderBy: the order among rows with equal keys is the insertion order here. The database's order for ties is not modelled.
- GridStrategy.ToUpper: only ASCII letters are upper-cased; Unicode case mapping is not modelled.
- GridStrategy.OnTick: requires lower < upper and a positive number of grids, the demands of the grid arithmetic. The validated spot grid configuration meets them (SpotGrid.ValidConfigAllowsGrid).
- Daily.OnTick: requires at least two bars, because the source reads the last two without a check. It also requires a non-zero ticker price: the source divides by it, and Go would give +Inf.
- Scalping.OnTick: requires a non-zero ticker price on every tick, including the close-flag, opposite-close and protective-close paths. Only the entry path divides by the price (the quote quantity at strategy/scalping/scalping.go:84), so for a zero price the model says nothing about the ticks that would have returned before that division.
- Robot.OpenMarketOrders, Robot.PlaceAsTaker, Robot.Trade: require a non-zero ticker price for the market case, because the market quantity divides the quote amount by it.
- SpotGrid.PlaceAsLimit, SpotGrid.Tick: require every LIMIT intent to have a non-zero open price (`Priced`). The configured quote amount is divided by it.
- Robot.SyncSpot: composes the corrected selector Robot.SyncOrder. The as-written behaviour, which writes the pre-sync copy back, is the first Findings row's first half (Robot.SyncOrderAsWritten).
- Robot.SyncFutures: composes the corrected selector Robot.SyncOrder; the as-written behaviour is the first Findings row's first half.
- Robot.PlaceAsMaker: its syncs compose the corrected selector Robot.SyncOrder; the as-written behaviour is the first Findings row's first half.
- Robot.Trade: its maker path composes the corrected selector Robot.SyncOrder; the as-written behaviour is the first Findings row's first half.
- Robot.CloseOrders: the stop types a client sends are a field of the exchange. Spot sends STOP_LOSS_LIMIT and TAKE_PROFIT_LIMIT (Gateway.SpotStopTypes). The futures client is not part of this model, so its stop types are left as a parameter.
- Robot.CloseAllAppends: states that new rows are of the exchange's stop types, for the same reason.
- SpotGrid.PlaceAtBookOne: uses the corrected ask guard SpotGrid.TPRead, so a book with one to three asks skips the take-profit. As written the bot panics, which would be `halted`; that is the second Findings row's first half (SpotGrid.TPReadAsWritten).
- SpotGrid.PlaceTPAdds: is proved over the corrected ask guard; the as-written guard is the second Findings row's first half.
- SpotGrid.PlaceAtBookAdds: is proved over the corrected ask guard; the as-written guard is the second Findings row's first half.
- SpotGrid.PlaceTPOne: uses the corrected ask guard; the as-written guard is the second Findings row's first half.
- SpotGrid.SyncLimitOne: its take-profit placement uses the corrected ask guard; the as-written guard is the second Findings row's first half.
- SpotGrid.SyncLimitLoop: folds the corrected ask guard; the as-written guard is the second Findings row's first half.
- SpotGrid.PlaceAsLimit: uses the corrected ask guard and sizes opens by the configured quote amount. As written the loops see a quote amount of zero (SpotGrid.LoopEnv); these are the second and third Findings rows' first halves.
- SpotGrid.Tick: composes the corrected ask guard and quote sizing; the as-written behaviour is the second and third Findings rows' first halves.
- SpotGrid.LimitSized: sizes by the configured quote amount, the third Findings row's corrected half. As written the loop sees zero and sends the intent's own quantity (SpotGrid.QuoteQtyFinding).
- SpotGrid.MarketSized: sizes by the configured quote amount, the third Findings row's corrected half; as written the intent's own quantity is sent.
- SpotGrid.OpenLimitRecords: records the quantity sized by the configured quote amount; as written it is the intent's own quantity (third Findings row).
- SpotGrid.OpenLimitLoop: its fold opens orders sized by the configured quote amount; as written they carry the intent's own quantity (third Findings row).
- SpotGrid.MarketOpenGate: the order it sends is sized by the configured quote amount; as written it carries the intent's own quantity (third Findings row).
- SpotGrid.OpenMarketOne: sends the quantity sized by the configured quote amount; as written it is the intent's own quantity (third Findings row).
- SpotGrid.OpenMarketLoop: folds opens sized by the configured quote amount; as written they carry the intent's own quantity (third Findings row).
- SpotGrid.PlaceAsMarket: its open phase is sized by the configured quote amount; as written the orders carry the intent's own quantity (third Findings row).
- Indicators (GetTrend, GetATR, WMA, GetHLRatio), the `common.*` close helpers, CalcLimitStop, CalcStopLowerTicker/CalcStopUpperTicker, and the per-side queries GetFilledOrdersBySide/GetLimitOrdersBySide/GetActiveOrder are not part of this model. Their results are inputs of each tick.
- The clock: Now13 and GenID. The time is the `now` parameter. GenID gives one identifier per tick in the strategies, and a function of the order in the grid bot. Distinct identifiers are not guaranteed by the model.
- Each tick reads the exchange once: the order book, snapshots and answers are fixed for the whole tick. Exchange errors other than "no answer" are not distinguished.
- The spot grid bot's database queries are taken to be the rdb queries of the same name. Its rounding helper is taken to be NormalizeDouble.
- The grid strategy's batch is an input of SpotGrid.Tick. GridStrategy.OnTick models how it is computed.
- `os.Exit`, panics and the nil dereference in the grid bot are the `halted` outcome. Logging, the error text, command-line and configuration parsing, the tick interval and its default of 3 seconds are not modelled.
- exchange/binance/spot/spot.go functions other than GetOrder, CancelOrder, GetCommission, GetTradeList, GetOrderBook and the three open calls are not part of this model. helper/http.go is not part of this model either.
- RandomStr in helper/util.go is not used by the modelled core and is left out.
- Floating-point error: prices and quantities are exact reals. Rounding follows `math.Round` on the exact value, not on its binary approximation.

## Findings

| source | as written | input that shows it | evidently intended | confidence | as-written member | corrected member |
|---|---|---|---|---|---|---|
| robot/robot.go:202-248 | the protective-order selectors pass the copy of the order taken before `syncStatus` to the pairing, which writes that copy back | a NEW stop-loss the venue reports FILLED, whose fill is in the trade list, with a commission: the stale copy's NEW status is written back over FILLED, and the parent's P/L is computed from the stale copy's commission instead of the venue's (Robot.StaleCopyMisstatesPL) | the pairing is handed the synced order, so the row ends FILLED with the venue's commission | not executed | Robot.StaleCopyRevertsStatus | Robot.SyncOrder |
| robot/binance/spot/grid/main.go:273-281 | the order-book guard only rejects an empty ask list, then reads the second and fourth asks | a book with two asks: the fourth ask is out of range and the bot panics | skip the take-profit when there are fewer than four asks | not executed | SpotGrid.AsksGuardFinding | SpotGrid.TPRead |
| robot/binance/spot/grid/main.go:118-125 | the loops' parameter record is built without the configured quote amount, so `p.quoteQty` is always zero at lines 166 and 389 and every opening order carries the intent's own quantity | base quantity 0 and quote amount 100 pass validation; at an open price of 10 with whole-unit quantities the loop sends quantity 0 where the quote amount asks for 10 | the parameter record carries the configured quote amount, and an opening order is worth at least that amount | not executed | SpotGrid.QuoteQtyFinding | SpotGrid.LimitSized |
