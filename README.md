# dubious_bot in Dafny

This project models the decision logic of dubious_bot, a market-making bot
for the Optibook exchange. It has three parts:

- **The quoting engine** (`bot.py`, class `TradingAlgorithm`), in `bot.dfy`.
  The engine keeps a fair-value estimate `theo` and a half-width `margin`
  for SMALL_CHIPS. It seeds them from the best bid and ask of the SMALL_CHIPS
  book. Each cycle it moves them with its own fills and with public trades,
  clamps `margin` at 0.05, and keeps running statistics of SMALL_CHIPS trade
  prices (count, sum, sum of squares, `sample_mean`, `sample_stdev`). It then
  deletes its resting orders, quotes a four-level ladder (volumes 2, 8, 16, 32)
  on each side of SMALL_CHIPS_NEW_COUNTRY, and may send one inventory-reducing
  order on SMALL_CHIPS when the best price is 1.5 or 2 deviations from the
  mean. The engine is a class whose fields the methods update. Each loop of
  `update_internal_state` is a method proved against a specification
  function: `ApplyOwnFills`, `ApplyMarketTrades` and `TrailingMean`.
- **The instrument validator** (`optibook/type_checking.py`, byte-identical to
  `optibook_client/type_checking.py`), in `type_checking.dfy`. An exception
  becomes `Fail(message)` with the source's exact text. The guard chain is
  proved equal to an ordered table of checks, and that table is proved
  equivalent to a declarative description of a conforming instrument.
- **The quote improver** (`example2.py`, `trade_cycle`), in
  `quote_improver.dfy`. When SMALL_CHIPS is missing or paused, the whole
  cycle is skipped. Otherwise it deletes its SMALL_CHIPS orders and, when the
  book has room, quotes one lot 0.1 inside the best bid and the best ask.

`common_types.dfy` holds the data shapes the three parts read. The exchange
is not modelled. What the engine reads from it in a cycle is a `Snapshot`
value. What the engine does to it is the returned list of `Action`s:
`DeleteOrders` and `Insert`. `math.sqrt` is a parameter `sqrt: real -> real`.
Prices are exact reals. In exact arithmetic the model proves that the value
passed to `sqrt` is never negative.

Behaviours of the code that a reader might not expect, all modelled as
written:

- Own fills. Only a fill above the left edge and at or below the right edge
  widens `margin`. A fill at or below the left edge, or above the right
  edge, narrows it. This is `Bot.OwnFillMovesOneEdge`.
- Margin floor. The 0.05 floor is applied only at the end of
  `update_internal_state`. The seeded margin is half the spread, so it can
  be below 0.05, or negative for a crossed book, until the first cycle.
- `sample_mean`. The running-mean update uses the count before the tick.
  After two or more ticks, `sample_mean` is therefore the mean of every tick
  except the first, not the mean of all ticks. `Bot.TrailingMean` models
  this. `Bot.TrailingMeanIsMeanIff` and `Bot.TrailingMeanDiffersFromMean`
  show where it differs from the mean.
- Sell test. Both buy branches fire when the best ask is more than 2σ or
  1.5σ below the mean. The sell branches (bot.py:307-309, 319-321) are not
  the mirror of this: they also fire when the best bid is more than 2σ or
  1.5σ *below* the mean. Their price, mean + 2σ, is then above the best bid,
  so the "Hitting" order rests in the book instead of hitting the bid.
- Partial sells. The partial-sell branch is priced at mean + 2σ, even though
  its log line (bot.py:323) says 1.5σ.

## Model

| member | source | states |
|---|---|---|
| TypeChecking.IsStock | optibook/type_checking.py:39-50 | No ensures. `TypeChecking.StockChainIsTable` states it, and `TypeChecking.StockAcceptedIff` gives its verdict. |
| TypeChecking.IsStockFuture | optibook/type_checking.py:53-73 | No ensures. `TypeChecking.StockFutureChainIsTable` states it. |
| TypeChecking.IsStockOption | optibook/type_checking.py:76-103 | No ensures. `TypeChecking.StockOptionChainIsTable` and `TypeChecking.StockOptionStrikeMessages` state it. |
| TypeChecking.IsIndexTrackingEtf | optibook/type_checking.py:106-133 | No ensures. `TypeChecking.IndexTrackingEtfChainIsTable` states it, and `TypeChecking.EtfAcceptedIff` gives its verdict. |
| TypeChecking.IsIndexFuture | optibook/type_checking.py:136-160 | No ensures. `TypeChecking.IndexFutureChainIsTable` states it. |
| TypeChecking.IsIndexOption | optibook/type_checking.py:163-196 | No ensures. `TypeChecking.IndexOptionChainIsTable` states it. |
| TypeChecking.ValidateInstrument | optibook/type_checking.py:5-36 | An instrument is accepted exactly when it conforms to the declarative description of its type. A missing id or a zero tick size gives the "not defined" error. A negative tick size gives "must be positive". An untyped instrument is accepted. |
| TypeChecking.ValidateIsFirstFailure | optibook_client/type_checking.py:5-36 | The guard chain equals trying the full ordered check table (header checks, then the type's checks) and reporting the first check that fails. |
| TypeChecking.FirstFailingCheckIsReported | optibook/type_checking.py:5-36 | When check k fails and every earlier check passes, check k's message is reported, whatever the later checks say. |
| TypeChecking.FirstFailurePassesIffNoneFails | optibook/type_checking.py:5-36 | Trying the checks in order passes exactly when no check fails. |
| TypeChecking.ValidateReportsFirstFailingCheck | optibook_client/type_checking.py:5-196 | validate_instrument raises the message of the first failing guard in source order. |
| TypeChecking.StockChainIsTable | optibook/type_checking.py:39-50 | The _is_stock guards are the STOCK check table, tried in order. |
| TypeChecking.StockFutureChainIsTable | optibook/type_checking.py:53-73 | The _is_stock_future guards are the STOCK_FUTURE check table, tried in order. |
| TypeChecking.StockOptionChainIsTable | optibook/type_checking.py:76-103 | The _is_stock_option guards are the STOCK_OPTION check table, tried in order. |
| TypeChecking.IndexTrackingEtfChainIsTable | optibook/type_checking.py:106-133 | The _is_index_tracking_etf guards are the INDEX_TRACKING_ETF check table, tried in order. |
| TypeChecking.IndexFutureChainIsTable | optibook/type_checking.py:136-160 | The _is_index_future guards are the INDEX_FUTURE check table, tried in order. |
| TypeChecking.IndexOptionChainIsTable | optibook/type_checking.py:163-196 | The _is_index_option guards are the INDEX_OPTION check table, tried in order. |
| TypeChecking.StockAcceptedIff | optibook/type_checking.py:39-50 | A STOCK is accepted exactly when base instrument, expiry, option kind and strike are all absent or falsy. A zero strike counts as absent. |
| TypeChecking.AcceptedDerivativeIsLive | optibook_client/type_checking.py:53-196 | Every accepted future or option has an expiry, and that expiry is not before now. |
| TypeChecking.ExpiryMattersOnlyThroughDeadline | optibook/type_checking.py:63-67 | Any two expiries at or after now give the same verdict. |
| TypeChecking.ExpiredStockFutureRejected | optibook/type_checking.py:53-67 | An expired STOCK_FUTURE with rate and base set is rejected with "expiry must be in the future". |
| TypeChecking.AcceptedOptionHasKindAndStrike | optibook/type_checking.py:93-103 | An accepted stock or index option is a PUT or a CALL and has a positive strike. |
| TypeChecking.StockOptionStrikeMessages | optibook_client/type_checking.py:99-103 | A missing or zero strike is reported as "not defined". A negative strike is reported as "must be positive". A positive strike is accepted. |
| TypeChecking.EtfAcceptedIff | optibook/type_checking.py:106-133 | An ETF is accepted exactly when it has its five index/ETF fields and none of the derivative fields. |
| TypeChecking.IndexDerivativesIgnoreBaseInstrument | optibook/type_checking.py:136-196 | The verdict on an index future or index option does not depend on base_instrument_id. |
| CommonTypes.IsTrading | bot.py:165-170 | No ensures. An instrument is trading when it is listed and not paused. `QuoteImprover.TradeCycle` and `Bot.Opportunist` state what follows from it. |
| Bot.InitialBand | bot.py:95-107 | The seed margin is half the spread. The seed theo lies between the best bid and the best ask, strictly when both volumes are positive and the book is not locked. With equal volumes it is the midpoint. |
| Bot.OwnFillStep | bot.py:184-192 | No ensures. `Bot.OwnFillMovesOneEdge` states its effect. |
| Bot.OwnFillMovesOneEdge | bot.py:184-192 | An own fill above the left edge keeps the right edge, and one at or below it keeps the left edge. The other edge moves by 0.03 × volume × the fill's distance from the edge that stays. It widens for fills inside the band and narrows otherwise. A zero-volume fill changes nothing. |
| Bot.MarketTradeStep | bot.py:201-221 | No ensures. `Bot.MarketTradeEffect` states its effect. |
| Bot.MarketTradeEffect | bot.py:201-221 | A public trade outside the band leaves margin unchanged and moves theo by 2 × 0.0003 × volume × (price − theo). A trade inside the band scales margin by (1 − 0.001 × volume) and moves theo by 0.001 × volume × (price − theo). Margin never grows. |
| Bot.ApplyOwnFills | bot.py:184-192 | No ensures. It is the reference for the own-fill loop. `Bot.TradingAlgorithm.ApplyOwnTrades` is proved equal to it, and `Bot.ZeroVolumeFillsChangeNothing` states a property of it. |
| Bot.ApplyMarketTrades | bot.py:196-221 | No ensures. It is the reference for the public-trade loop. `Bot.TradingAlgorithm.ApplyOtherTrades` is proved equal to it, and `Bot.OwnTradeTicksAreSkipped` and `Bot.MarketTradesNeverWiden` state properties of it. |
| Bot.CycleBand | bot.py:179-223 | After a cycle's update, margin is at least 0.05. With no trades, theo is unchanged and margin is max(margin, 0.05). |
| Bot.ZeroVolumeFillsChangeNothing | bot.py:184-192 | Own fills of zero volume leave theo and margin unchanged. |
| Bot.WithoutIds | bot.py:200 | The filter keeps exactly the trades whose id is not an own trade id, and no others. |
| Bot.OwnTradeTicksAreSkipped | bot.py:183-200 | The public-trade update with own trade ids filtered out equals the update over just the other trades, unfiltered, whatever the mix. So public trades that are all own fills do not move the estimate. |
| Bot.MarketTradesNeverWiden | bot.py:201-221 | Any sequence of public trades leaves margin at most where it was. |
| Bot.CycleWithoutOwnFillsNeverWidens | bot.py:196-223 | A cycle without own fills ends with margin at most max(margin, 0.05). |
| Bot.SeedThenOwnFillScenario | bot.py:83-107 | A 99×10 / 101×10 book seeds theo 100 and margin 1. An own fill at 99.5 for 4 then gives theo 99.91 and margin 1.09. |
| Bot.TrailingMean | bot.py:229-234 | No ensures. It is what sample_mean holds after the ticks seen. `Bot.MeanUpdateKeepsTrailingMean`, `Bot.TrailingMeanIsMeanIff` and `Bot.TrailingMeanDiffersFromMean` state it. |
| Bot.MeanUpdateKeepsTrailingMean | bot.py:229-234 | The running-mean update keeps sample_mean equal to TrailingMean of the ticks seen. |
| Bot.TrailingMeanIsMeanIff | bot.py:229-234 | With two or more ticks, sample_mean equals the true mean exactly when the first tick equals sample_mean. |
| Bot.TrailingMeanDiffersFromMean | bot.py:229-234 | For the ticks 1 and 3, sample_mean is 3 while the mean is 2. |
| Bot.Deviation | bot.py:236-240 | No ensures. It is the sample_stdev formula 1/n × sqrt(n × sum of squares − sum²). `Bot.TradingAlgorithm.RecordTick` is proved to store it, and `Bot.RadicandNonNegative` proves its sqrt argument non-negative in exact arithmetic. |
| Bot.RadicandNonNegative | bot.py:236-239 | In exact arithmetic, n × sum of squares − sum² is never negative (Cauchy–Schwarz). |
| Bot.RoundToTenth | bot.py:263-264 | round(x, 1) is a multiple of 0.1 within 0.05 of x. Ties go to the even multiple. |
| Bot.EdgeBid | bot.py:258-261 | No ensures. It is the best bid price, or 0 without bids. `Bot.StartBid`, `Bot.Quotes` and `Bot.Opportunist` state what depends on it. |
| Bot.EdgeAsk | bot.py:258-261 | No ensures. It is the best ask price, or 1e7 without asks. `Bot.StartAsk`, `Bot.Quotes` and `Bot.Opportunist` state what depends on it. |
| Bot.StartBid | bot.py:263 | The top bid is min(best bid + 0.1, round(theo − margin − 0.05, 1)): it is at most both and equal to one of them. It is at or below theo − margin, and at least the smaller of one tick above the best bid and theo − margin − 0.1. |
| Bot.StartAsk | bot.py:264 | The bottom ask is max(best ask − 0.1, round(theo + margin + 0.05, 1)): it is at least both and equal to one of them. It is at or above theo + margin, and at most the larger of one tick below the best ask and theo + margin + 0.1. |
| Bot.PlaceOrder | bot.py:61-72 | The side string "bid" becomes a bid and any other string becomes an ask. Instrument, price and volume are passed through. |
| Bot.Ladder | bot.py:74-81 | One order per volume-curve entry, carrying that entry's volume. Prices step by 0.1: up for "ask", down otherwise. The prices are strictly monotone along the ladder. |
| Bot.BidLadderScenario | bot.py:74-81 | A bid ladder from 99.8 quotes 99.8×2, 99.7×8, 99.6×16 and 99.5×32. |
| Bot.LadderStaysOutsideBand | bot.py:254-270 | Every ladder bid is at or below theo − margin and at most one tick above the best bid. Every ladder ask is at or above theo + margin and at least one tick below the best ask. |
| Bot.Opportunist | bot.py:272-330 | An order is sent exactly when the gate holds (trading, at least 20 ticks, non-zero deviation) and either the position is short with the ask z-edge above 1.5 or long with the bid z-edge above 1.5. The order is always on SMALL_CHIPS. A buy is only sent when short. Above 2σ it buys the whole short at mean − 2σ; otherwise it buys min(10, short) at mean − 1.5σ. A sell is only sent when long, always priced at mean + 2σ. Above 2σ it sells the whole long; otherwise it sells min(10, long). |
| Bot.OpportunistLiftScenario | bot.py:281-293 | Short 12, mean 50, σ 1 and best ask 47.5 give a buy of 12 at 48. |
| Bot.OpportunistPartialSellPricedAtTwoSigma | bot.py:319-330 | Long 30 with the bid between 1.5σ and 2σ below the mean gives a sell of 10 at mean + 2σ. |
| Bot.TradingAlgorithm.constructor | bot.py:31-59 | The band is seeded from the best SMALL_CHIPS levels. The statistics and the position start at zero. |
| Bot.TradingAlgorithm.ValidRadicandNonNegative | bot.py:236-239 | In every valid state, the value passed to sqrt is non-negative in exact arithmetic. |
| Bot.TradingAlgorithm.UpdateInternalState | bot.py:179-240 | The new band is CycleBand of the old one: own fills of both instruments, then public trades not among them, then the floor. Deltas is the sum of both positions. The SMALL_CHIPS tick prices are appended to the statistics, which stay consistent. sample_stdev is 1/n × sqrt(n × sum of squares − sum²), or unchanged when there were no ticks. |
| Bot.TradingAlgorithm.ApplyOwnTrades | bot.py:184-192 | The own-fill loop leaves the band at ApplyOwnFills of the old band. |
| Bot.TradingAlgorithm.ApplyOtherTrades | bot.py:196-221 | The public-trade loop skips own trade ids and leaves the band at ApplyMarketTrades of the old band. |
| Bot.TradingAlgorithm.RecordTicks | bot.py:228-240 | The statistics loop appends every SMALL_CHIPS price and keeps count, sum, sum of squares and sample_mean consistent with the ticks. |
| Bot.TradingAlgorithm.RecordTick | bot.py:229-240 | One tick updates count, sum, sum of squares and sample_mean consistently, and recomputes sample_stdev. |
| Bot.TradingAlgorithm.PropagateTrade | bot.py:242-246 | theo moves by rate × volume × (price − theo). margin moves by its rate times the absolute value of that update, so it never shrinks when the rate is non-negative. |
| Bot.TradingAlgorithm.PlaceQuotesLevels | bot.py:74-81 | The loop emits exactly Ladder over the volume curve [2, 8, 16, 32]. |
| Bot.TradingAlgorithm.SendOrders | bot.py:248-334 | The actions are exactly CycleOrders of the current state. |
| Bot.CycleOrders | bot.py:248-334 | The actions start with the deletes on both instruments. When NEW_COUNTRY is trading, the next 2 × |curve| actions are exactly `Bot.Quotes`, all inserts on NEW_COUNTRY. When the opportunist has an order, the last action inserts it. The length is fixed by these parts. Without NEW_COUNTRY trading, every insert is on SMALL_CHIPS. |
| Bot.Quotes | bot.py:254-269 | The bid ladder, then the ask ladder. Bid level k has the curve's k-th volume, price StartBid − 0.1 × k, and is at or below theo − margin and at most the best bid + 0.1. Ask level k has the k-th volume, price StartAsk + 0.1 × k, and is at or above theo + margin and at least the best ask − 0.1. |
| Bot.TradingAlgorithm.Run | bot.py:336-345 | A disconnected cycle changes nothing and sends nothing. A connected one leaves the band at CycleBand of the old band, deltas at the sum of the positions, the SMALL_CHIPS prices appended to the ticks, sample_stdev recomputed when there were ticks, and margin at least 0.05. Its actions are CycleOrders of that new state, starting with the two deletes. |
| QuoteImprover.TradeCycle | example2.py:43-94 | A missing or paused instrument gives no action. Otherwise orders are deleted first. Two one-lot quotes, the bid 0.1 above the best bid and the ask 0.1 below the best ask, follow exactly when the book has both sides and the improved quotes are more than 0.01 apart. |
| QuoteImprover.QuotesImproveWithoutCrossing | example2.py:66-86 | When quoting, the new bid is above the best bid, the new ask is below the best ask, and the bid stays more than 0.01 below the ask. |
| QuoteImprover.QuotesNeedSpreadAboveTwentyOneCents | example2.py:63-92 | With both sides present, the cycle quotes exactly when the spread exceeds 0.21. Otherwise it only deletes. |
| QuoteImprover.ImproveScenario | example2.py:66-86 | A 90 / 91 book is quoted at 90.1 and 90.9, one lot each. |

## Left out

- Exchange I/O is not modelled: connecting, the instrument list, books, trade polling, positions, PnL, and the responses to inserts and deletes. A cycle's inputs are a `Snapshot` and its outputs a list of `Action`s. Order-insert failures, which the source only logs, are not represented.
- Logging, `print_status`, `print_report`, `print_order_response` and the colour helpers in `helper.py` are output only, so they are left out.
- `compute_market_ema` is never called by the engine, so it is left out.
- The waiting loops (sleep and poll until instruments and a two-sided SMALL_CHIPS book exist) are left out. The constructor starts from a book that has both sides.
- The exception `__init__` raises for a configured instrument missing from the exchange is not modelled.
- Bot.TradingAlgorithm.constructor: requires the two best volumes to sum to more than zero, because the source divides by that sum.
- Books are always present in a `Snapshot`. In the source, a `None` book in `send_orders` would raise, and that case is not modelled.
- Floating point is not modelled: prices are exact reals, and `round(x, 1)` is round-half-even on exact values. Binary representation effects of Python floats are not captured.
- `math.sqrt` is a parameter. The model proves that its argument is non-negative in exact arithmetic, but not what it returns.
- Float cancellation in `n * square_sum - sum**2` is not modelled. With repeated equal prices the float radicand can come out slightly negative. `math.sqrt` then raises `ValueError`, and nothing in `update_internal_state`, `run` or `main` catches it, so the process ends.
- `datetime.now()` is a parameter `now`, and expiries are integer timestamps. Parsing expiry strings and `from_dict` are not modelled. An enum lookup that fails leaves the raw name, modelled as `UnparsedType` / `UnparsedKind`.
- The `parameters` dictionary, timestamps and trade sides of the exchange types are not read by the core, so they are not kept.
- `propagate_trade` is modelled but, as in the source, never called by the engine.
- The `main` loops of `bot.py` and `example2.py` and their sleeps are left out.
