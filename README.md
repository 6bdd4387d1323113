# Noise strategy and stop-loss/budget control — a verified model

This project models the decision logic of two trading-strategy plugins for a
bot framework. The framework owns the trades, the orders, the balances and
the exchange. The plugins decide when to buy and how much, and keep one
grouped trailing stop order over the open trades.

- `trading.dfy` (module `Trading`): trades, stop orders, and the
  `BotStatus` object. The engine updates the status's trade list in place.
- `budget.dfy` (module `Budget`): the rolling spend-budget tracker. Trades
  are grouped into calendar day buckets (from midnight UTC) or week buckets
  (Monday 00:00 to the end of Sunday, UTC) by their shifted entry time. The
  spend of the current bucket comes off the daily and weekly caps, and the
  result is clamped at 0.
- `trailing_stop.dfy` (module `TrailingStop`): the trailing-stop engine.
  It derives the stop price and applies the two sanity guards. It cancels
  stop orders that trigger below the new level and tags the trades that
  reached the trailing start with `"new_grouped_order"`. It places one
  grouped stop order when the total amount reaches the exchange minimum,
  and then re-points the covered trades to that order. The engine's loops
  are methods over `BotStatus`, each proved against a specification
  function. `TrailingCycle` describes a whole cycle.
- `noise.dfy` (module `NoiseStrategy`): the `Noise` class.
  - The strategy's parameters are attributes that `init` assigns one by
    one while it reads the configuration. An attribute `init` never reached
    stays unset (`None`), and reading it in `next` raises.
  - `Init` reads the configuration in the source's order. The first missing
    key, or a `sell_band_low_pct` that is not positive, ends the reading
    and is recorded as the init error. `AfterInit` gives every attribute
    after the reading, whether it succeeded or not.
  - `Next` runs the early exits, the candle count, the buy gate and sizing,
    and then the trailing-stop engine. `NextCycle` describes a whole cycle,
    including where it raises on an unset attribute.

Quantities are `real`. Times are integer milliseconds since the Unix epoch.
Every exchange or library call is a function-valued parameter:
`cancelOrder`, `stopLoss`, `createMarketBuyOrder`, `amountToPrecision`,
and the indicator values as a function of the number of candles read.

The model follows the code as written:
- When a guard zeroes `new_stop_loss` and `stop_price`, the code still runs
  the cancel, tag and group steps, with zero values.
  `GuardedCycleTagsNothing` states when those steps then do nothing.
- A trade left tagged by a cycle whose stop order failed is not eligible
  again, because its exit id is no longer `'0'`, so its size is not counted
  again. It is still re-pointed to the next grouped order that is placed.
- The engine reads `band_low_pct`, but `Noise.init` only sets
  `sell_band_low_pct`, and nothing in these files sets `band_low_pct`.
  The host is assumed to set it, and `Noise.Next` takes it as the explicit
  parameter `bandLowPct` (see "Left out").
- The candle count lists `buy_macd_fast` twice and `buy_macd_slow` not at
  all. `CandleWindows` keeps that list as written.
- The current window's spend is read from the last row of the merged
  table. That row is now's bucket only when no trade is in a later bucket.
  `SpentInCurrentFreq` reads the last row, as the code does.
  `SpentInCurrentFreqIsNowBucketSum` and
  `SpentInCurrentFreqIsLatestBucketSum` state which bucket's sum that is.
- `init` assigns `sell_band_low_pct` before it checks it, and a rejected
  configuration leaves the attributes read so far assigned. A later `next`
  can then still place a market buy: `RejectedBandConfigStillBuys`.

## Model

| member | source | states |
|---|---|---|
| Budget.BucketIsInterval | elena_basics/strategies/common_sl_budget.py:37-42 | a time is in bucket b exactly when it lies in b's interval [start, start + length) (both directions) |
| Budget.WeekStartsOnMonday | elena_basics/strategies/common_sl_budget.py:89-92 | every week bucket starts on a Monday at midnight UTC and lasts seven days |
| Budget.SpentInEmptyBucket | elena_basics/strategies/common_sl_budget.py:42 | a bucket that holds no trade sums to exactly 0.0 |
| Budget.SpentInBucketNonNegative | elena_basics/strategies/common_sl_budget.py:42 | non-negative entry costs give a non-negative bucket spend |
| Budget.LatestBucket | elena_basics/strategies/common_sl_budget.py:64-66 | the last row of the grouped table is the greatest bucket of any trade, and some trade is in it |
| Budget.BucketLabel | elena_basics/strategies/common_sl_budget.py:42 | a bucket's label time lies inside the bucket |
| Budget.SpentInCurrentFreqIsNowBucketSum | elena_basics/strategies/common_sl_budget.py:52-73 | if no trade is in a later bucket than now, the spend read is the sum of entry_cost over the trades in now's shifted bucket (0.0 without trades) |
| Budget.SpentInCurrentFreqIsLatestBucketSum | elena_basics/strategies/common_sl_budget.py:52-73 | if some trade is in a later bucket than now, the spend read is the sum of entry_cost over the latest trade's bucket |
| Budget.NoTradesSpendZero | elena_basics/strategies/common_sl_budget.py:43-50 | with no active trades the spend read is exactly 0.0, for either frequency, any shift and any time |
| Budget.EmptyCurrentWindowSpendsZero | elena_basics/strategies/common_sl_budget.py:63-69 | if every trade is in an earlier bucket than now, the last row is the marker row with a missing value, and the spend read is 0.0 |
| Budget.SpentInCurrentFreqNonNegative | elena_basics/strategies/common_sl_budget.py:52-73 | non-negative entry costs give a non-negative spend read |
| Budget.BudgetLeftInFreq | elena_basics/strategies/common_sl_budget.py:75-99 | the result is never negative; it is at most the free budget and each configured cap minus its window's spend, unless 0; it equals one of those candidates or is 0 only when a candidate is not positive; with no caps and free >= 0 it is the free budget |
| Budget.BudgetLeftWithinCaps | elena_basics/strategies/common_sl_budget.py:82-96 | with non-negative entry costs, the budget left never exceeds a configured non-negative daily or weekly cap |
| TrailingStop.TooFarGuardIffGapOver20Pct | elena_basics/strategies/common_sl_budget.py:129-136 | the first guard fires exactly when band_low_pct > 20 for a positive stop level, or < 20 for a negative one |
| TrailingStop.GuardedLevels | elena_basics/strategies/common_sl_budget.py:128-142 | both levels are zeroed when either guard fires and kept otherwise; the kept trigger is never above the close and the limit is never more than 20% below the trigger |
| TrailingStop.CancelledIff | elena_basics/strategies/common_sl_budget.py:106-111 | an order is counted as cancelled exactly when its trigger is below the new level and the exchange accepted the cancel |
| TrailingStop.AttemptedAmountSplits | elena_basics/strategies/common_sl_budget.py:107-113 | the amount of the cancel requests splits into the amount of the successful cancels plus the amount of the failed ones |
| TrailingStop.NothingSupersededNothingCancelled | elena_basics/strategies/common_sl_budget.py:106-108 | when no order triggers below the new level, nothing is cancelled |
| TrailingStop.CancelActiveOrdersWithLowerStopLoss | elena_basics/strategies/common_sl_budget.py:101-114 | cancels are requested exactly for orders triggering below the new level, in order; the returned amount and id list are those of the successful cancels only, in iteration order |
| TrailingStop.TaggedAt | elena_basics/strategies/common_sl_budget.py:148-152 | the tagging loop changes a trade exactly when it has exit id '0' and the stop price is above both the minimal-benefit price and min_price_to_start_trailing, and then only sets its exit id to "new_grouped_order" |
| TrailingStop.TaggedTradeNotRecounted | elena_basics/strategies/common_sl_budget.py:149-153 | a trade that already has an exit id adds nothing to the new amount, whatever its size |
| TrailingStop.NoEligibleNoAmount | elena_basics/strategies/common_sl_budget.py:145-153 | with no eligible trade the new amount is 0 |
| TrailingStop.TaggingRaisesIff | elena_basics/strategies/common_sl_budget.py:148-151 | the tagging loop raises exactly when some trade with exit id '0' needs an unset attribute: minimal_benefit_to_start_trailing, or min_price_to_start_trailing once the benefit test passed |
| TrailingStop.SetAttributesNeverRaise | elena_basics/strategies/common_sl_budget.py:148-151 | with both trailing-start attributes set, the tagging loop never raises |
| TrailingStop.UnsetAttributeTagsNothing | elena_basics/strategies/common_sl_budget.py:148-153 | when an attribute is unset and the loop does not raise, no trade is tagged and the new amount is 0, whatever value stands in for the unset attribute |
| TrailingStop.TagTradesReachingTrailingStart | elena_basics/strategies/common_sl_budget.py:145-153 | the status's trade list becomes the tagged list, and the returned amount is the sum of the eligible trades' sizes; orders and budget are unchanged |
| TrailingStop.RepointTrades | elena_basics/strategies/common_sl_budget.py:162-169 | exactly the trades whose exit id is among the given ids take the new order id and the new stop level as exit price |
| TrailingStop.GroupedOrderRequestedIff | elena_basics/strategies/common_sl_budget.py:156-160 | a grouped order is requested exactly when cancelled amount + new amount reaches the exchange minimum, for that total with trigger new_stop_loss and limit stop_price; no request, no order |
| TrailingStop.TrailingCycleTradeAt | elena_basics/strategies/common_sl_budget.py:144-172 | after a cycle: if the order was placed, exactly the covered trades (newly eligible, left tagged, or behind a cancelled order) carry its id and exit price new_stop_loss; if not, eligible trades are tagged and every other trade is unchanged |
| TrailingStop.LeftoverTagRepointedButNotCounted | elena_basics/strategies/common_sl_budget.py:148-168 | a trade left tagged by an earlier failed cycle is not counted in the new amount but is re-pointed to the next order placed, and stays tagged otherwise |
| TrailingStop.GuardedCycleTagsNothing | elena_basics/strategies/common_sl_budget.py:132-153 | when a guard fires, with a non-negative min_price_to_start_trailing and non-negative order triggers, nothing is cancelled, no trade is counted, and without a placed order the trades are unchanged |
| TrailingStop.ManageTrailingStopLosses | elena_basics/strategies/common_sl_budget.py:116-172 | the status's trade list ends as TrailingCycle describes and the report is its report; orders and budget are untouched |
| NoiseStrategy.InitSucceedsIff | elena_basics/strategies/noise.py:45-71 | init records no error exactly when every required key is present and sell_band_low_pct > 0 |
| NoiseStrategy.NonPositiveSellBandLowPctRejected | elena_basics/strategies/noise.py:61-63 | once the keys read before it are present, sell_band_low_pct <= 0 is the recorded init error |
| NoiseStrategy.AssignedCount | elena_basics/strategies/noise.py:46-69 | the number of attributes init assigns: every key read before the stop is present; the reading stops at the next key when it is missing, or after sell_band_low_pct when that is not positive or minimal_benefit_to_start_trailing is missing; all fourteen only when the band is positive and every required key is present |
| NoiseStrategy.InitErrorMarksAssignedPrefix | elena_basics/strategies/noise.py:46-71 | no error exactly when all fourteen attributes are assigned; a missing key is the required key right after the assigned ones; a rejected band stops the reading after sell_band_low_pct |
| NoiseStrategy.ParamsFrom | elena_basics/strategies/noise.py:46-69 | an accepted configuration has sell_band_low_pct > 0, and min_price_to_start_trailing is the configured value or 0.0 when absent |
| NoiseStrategy.AcceptedInitSetsAllAttributes | elena_basics/strategies/noise.py:46-69 | an accepted configuration sets every attribute to the configured parameters, whatever was set before |
| NoiseStrategy.RejectedBandSetsEarlierAttributes | elena_basics/strategies/noise.py:46-63 | a configuration rejected for sell_band_low_pct <= 0 still sets every attribute up to sell_band_low_pct, with the rejected value, and leaves the trailing-start attributes as they were |
| NoiseStrategy.IndicatorReadError | elena_basics/strategies/noise.py:100-121 | the attribute reported is unset; when none is reported, all nine attributes the candle count and the indicator calls read are set |
| NoiseStrategy.Trunc | elena_basics/strategies/noise.py:100 | Python's int() on a float truncates toward zero |
| NoiseStrategy.MaxOf | elena_basics/strategies/noise.py:100-103 | the maximum is one of the listed values and no listed value exceeds it |
| NoiseStrategy.DataPoints | elena_basics/strategies/noise.py:100-103 | the candle count exceeds every listed window by more than 9, and by at least 10 when the longest window is a whole number |
| NoiseStrategy.EarlyExitOf | elena_basics/strategies/noise.py:83-98 | the cycle goes on exactly when min_cost and the estimated close are present and non-zero and a balance was read |
| NoiseStrategy.DecideBuy | elena_basics/strategies/noise.py:137-156 | a buy is considered exactly on close < central band and buy MACD histogram > 0; the spend is the least of budget left, spend_on_order and free quote; a market buy iff amount >= min_amount and spend >= min_cost |
| NoiseStrategy.EarlyExitChangesNothing | elena_basics/strategies/noise.py:85-98 | a cycle stops early exactly when a check fails, and then changes no trade |
| NoiseStrategy.BuyOnlyWithinLimits | elena_basics/strategies/noise.py:138-156 | a market buy is placed only on the buy signal, within all three spend limits (spend_on_order set) and both exchange minimums; error_on_buy is set exactly when a signalled buy was not placed |
| NoiseStrategy.TrailingRunsEveryCycle | elena_basics/strategies/noise.py:124-159 | with every attribute set, once the early checks and the quote lookup pass, the cycle completes and its trades and trailing report are exactly those of the trailing-stop cycle on the new stop level, whatever the buy outcome; the sell signal changes nothing |
| NoiseStrategy.AcceptedConfigNeverRaises | elena_basics/strategies/noise.py:45-161 | after init accepted the configuration, no cycle reads an unset attribute |
| NoiseStrategy.EarlyInitFailureNeverOrders | elena_basics/strategies/noise.py:46-57 | when init stopped before sell_band_mult, every cycle stops early or raises before placing or cancelling any order |
| NoiseStrategy.MissingSellBandMultRaisesAfterBuy | elena_basics/strategies/noise.py:143-159 | when init stopped at a missing sell_band_mult, no cycle completes; a cycle that gets past the buy raises at the engine call, after any market buy and before any cancel, with the trades unchanged |
| NoiseStrategy.RejectedBandConfigStillBuys | elena_basics/strategies/noise.py:61-63 | after init rejected sell_band_low_pct <= 0, when the early checks pass, the quote currency is in the balance and the central band is at or below the upper band, a buy signal still leads to the buy an accepted configuration would decide and to the market order; the cycle then raises in the tagging loop on minimal_benefit_to_start_trailing exactly when some trade has no exit order, with the trades unchanged |
| NoiseStrategy.Noise.constructor | elena_basics/strategies/noise.py:23-32 | a new strategy object has no parameter attribute set and no init error |
| NoiseStrategy.Noise.Init | elena_basics/strategies/noise.py:39-71 | stores the config; the recorded error is the first failure in reading order; every attribute is as AfterInit gives it: assigned from the config up to where the reading stopped, unchanged after |
| NoiseStrategy.Noise.ReadSignalParams | elena_basics/strategies/noise.py:46-57 | reads the signal parameters in order, stopping at the first missing key; each attribute is assigned exactly when the reading got that far |
| NoiseStrategy.Noise.ReadTrailingParams | elena_basics/strategies/noise.py:59-69 | reads the sell band and trailing parameters, assigning sell_band_low_pct before rejecting a value <= 0 and defaulting min_price_to_start_trailing to 0.0; each attribute is assigned exactly when the reading got that far |
| NoiseStrategy.Noise.Next | elena_basics/strategies/noise.py:78-161 | the outcome and the new trade list are those NextCycle gives from the attributes and the status before the call, including where it raises on an unset attribute; orders and budget are untouched |

## Left out

- Indicator math (`ta.dema`, `ta.stdev`, `ta.bbands`, `ta.macd`, `get_macd_histogram`): floating-point numerics in a foreign library. The last band and histogram values and `new_stop_loss` come from a function of the number of candles requested.
- Exchange and host calls (`cancel_order`, `stop_loss`, `create_market_buy_order`, `amount_to_precision`, `limit_min_amount`, `limit_min_cost`, `get_balance`, `read_candles`, `get_estimated_last_close`): they are function parameters or input values. Cancelling an id always gives the same answer within a cycle, and both calls of `limit_min_amount()` in a cycle (elena_basics/strategies/noise.py, line 83, and elena_basics/strategies/common_sl_budget.py, line 158) return the same value.
- `cancel_order` and `stop_loss` (elena_basics/strategies/common_sl_budget.py, lines 108 and 159) and `create_market_buy_order` (elena_basics/strategies/noise.py, line 148) are assumed not to change the bot status. The host may add or remove trades and orders in them; the model does not. "Orders and budget untouched" in `ManageTrailingStopLosses` and `Noise.Next`, and the trade list the engine starts from in `TrailingRunsEveryCycle`, rest on that assumption.
- Exceptions raised by host calls are not modelled. Neither is a `None` from `limit_min_amount()` reaching a comparison. The exceptions modelled in `next` are the lookup of a quote currency missing from the balance (`QuoteLookupFailed`) and the reads of the fourteen attributes `init` assigns, when `init` did not assign them.
- The tagging loop raises at the first trade that needs an unset attribute. Since tagging any trade needs both attributes, no trade is tagged before that; the model decides the raise ahead of the loop, after the cancels, with the same effect on the status.
- Timestamps: every reading of the current time is one `now`. `spent_times_shift` is a duration already converted to milliseconds. Time-zone handling and `pd.Timedelta` string parsing are not modelled.
- Floating point: amounts are exact reals, so NaN entry costs and rounding are not modelled. The NaN produced by an empty current bucket is modelled as the 0.0 it is mapped to.
- Configuration values are numbers. A value `float()` cannot convert is also caught as an init error in the source, but is not modelled.
- Metrics gauges, logger calls and notifications: side effects only.
- `Common_stop_loss_budget_control.init` and `next` are pass-throughs to the framework.
- The sell-signal loop has an empty body, so the model has nothing for it beyond its read of `minimal_benefit_to_start_trailing` and placing no order.
- `next` returns `None` on an early exit and the status otherwise. The model returns a `CycleOutcome` and leaves the status unchanged on an early exit.
- `band_low_pct`: nothing in these files assigns it; it is only annotated on the classes (elena_basics/strategies/common_sl_budget.py, line 26, and elena_basics/strategies/noise.py, line 30). The model assumes the host sets it and takes it as the parameter `bandLowPct`. Left unset, its read at elena_basics/strategies/common_sl_budget.py, line 129, would raise in every cycle that gets past the buy, after any market buy and before any cancel. `AcceptedConfigNeverRaises`, `TrailingRunsEveryCycle` and the `Completed` outcome of `Noise.Next` rest on that assumption.
