/**
 * Trailing-stop engine, run once per strategy cycle: derive the stop price
 * from the new stop level, apply the two sanity guards, cancel the resting
 * stop orders that trigger below the new level, tag the trades that reached
 * the trailing start, place one grouped stop order for the cancelled amount
 * plus the tagged trades' sizes, and re-point the covered trades to it.
 *
 * The exchange is a pair of functions: whether cancelling an order id
 * succeeds, and the order id (if any) a stop-order request yields.
 */
module TrailingStop {
  import opened Trading

  /** Strategy parameters the engine reads. */
  datatype TrailingConfig = TrailingConfig(
    bandLowPct: real,
    minimalBenefitToStartTrailing: real,
    minPriceToStartTrailing: real)

  /** A stop-order request: amount, trigger level and limit price. */
  datatype StopRequest = StopRequest(amount: real, stopPrice: real, price: real)

  /** The exchange calls the engine makes. */
  datatype StopLossExchange = StopLossExchange(
    cancelOrder: OrderId -> bool,
    stopLoss: StopRequest -> Option<OrderId>)

  // ---------------------------------------------------------------------
  // Stop levels and guards
  // ---------------------------------------------------------------------

  /** The trigger level and the limit price below it. */
  datatype StopLevels = StopLevels(newStopLoss: real, stopPrice: real)

  /** The limit price band_low_pct percent below the trigger level. */
  function StopPriceFor(newStopLoss: real, bandLowPct: real): real
  {
    newStopLoss * (1.0 - bandLowPct / 100.0)
  }

  /** The first guard fires exactly when the gap is over 20% of a positive level (under it for a negative one). */
  lemma TooFarGuardIffGapOver20Pct(newStopLoss: real, bandLowPct: real)
    ensures StopPriceFor(newStopLoss, bandLowPct) < newStopLoss * 0.8
            <==> (newStopLoss > 0.0 && bandLowPct > 20.0) || (newStopLoss < 0.0 && bandLowPct < 20.0)
  {
    assert StopPriceFor(newStopLoss, bandLowPct) - newStopLoss * 0.8
           == newStopLoss * (20.0 - bandLowPct) / 100.0;
  }

  /**
   * Both levels after the guards: they are zeroed when the limit price is
   * more than 20% below the trigger, or when the trigger is above the
   * estimated close. Whatever survives never triggers above the close and
   * keeps the limit within 20% of the trigger.
   */
  function GuardedLevels(newStopLoss: real, bandLowPct: real, estimatedClose: real): (l: StopLevels)
    ensures StopPriceFor(newStopLoss, bandLowPct) < newStopLoss * 0.8 || newStopLoss > estimatedClose
            ==> l == StopLevels(0.0, 0.0)
    ensures !(StopPriceFor(newStopLoss, bandLowPct) < newStopLoss * 0.8 || newStopLoss > estimatedClose)
            ==> l == StopLevels(newStopLoss, StopPriceFor(newStopLoss, bandLowPct))
    ensures l.stopPrice >= l.newStopLoss * 0.8
    ensures estimatedClose >= 0.0 ==> l.newStopLoss <= estimatedClose
  {
    var stopPrice := StopPriceFor(newStopLoss, bandLowPct);
    var afterFirst :=
      if stopPrice < newStopLoss * 0.8 then StopLevels(0.0, 0.0) else StopLevels(newStopLoss, stopPrice);
    if afterFirst.newStopLoss > estimatedClose then StopLevels(0.0, 0.0) else afterFirst
  }

  // ---------------------------------------------------------------------
  // Cancelling superseded orders
  // ---------------------------------------------------------------------

  /** An order whose trigger is below the new stop level is superseded. */
  predicate Supersedes(newStopLoss: real, o: Order)
  {
    newStopLoss > o.stopPrice
  }

  /** The superseded orders, in order: the cancel requests issued. */
  function Attempted(orders: seq<Order>, newStopLoss: real): seq<Order>
    decreases |orders|
  {
    if orders == [] then []
    else
      var o := orders[|orders| - 1];
      Attempted(orders[..|orders| - 1], newStopLoss) + (if Supersedes(newStopLoss, o) then [o] else [])
  }

  /** The superseded orders whose cancellation succeeded, in order. */
  function Cancelled(orders: seq<Order>, newStopLoss: real, cancelOrder: OrderId -> bool): seq<Order>
    decreases |orders|
  {
    if orders == [] then []
    else
      var o := orders[|orders| - 1];
      Cancelled(orders[..|orders| - 1], newStopLoss, cancelOrder)
      + (if Supersedes(newStopLoss, o) && cancelOrder(o.id) then [o] else [])
  }

  /** The superseded orders whose cancellation failed, in order. */
  function FailedCancels(orders: seq<Order>, newStopLoss: real, cancelOrder: OrderId -> bool): seq<Order>
    decreases |orders|
  {
    if orders == [] then []
    else
      var o := orders[|orders| - 1];
      FailedCancels(orders[..|orders| - 1], newStopLoss, cancelOrder)
      + (if Supersedes(newStopLoss, o) && !cancelOrder(o.id) then [o] else [])
  }

  function TotalAmount(os: seq<Order>): real
    decreases |os|
  {
    if os == [] then 0.0 else TotalAmount(os[..|os| - 1]) + os[|os| - 1].amount
  }

  function Ids(os: seq<Order>): (ids: seq<OrderId>)
    ensures |ids| == |os| && forall i | 0 <= i < |os| :: ids[i] == os[i].id
  {
    seq(|os|, i requires 0 <= i < |os| => os[i].id)
  }

  lemma TotalAmountAppend(os: seq<Order>, o: Order)
    ensures TotalAmount(os + [o]) == TotalAmount(os) + o.amount
  {
    assert (os + [o])[..|os|] == os;
  }

  lemma IdsAppend(os: seq<Order>, o: Order)
    ensures Ids(os + [o]) == Ids(os) + [o.id]
  {
    var l, r := Ids(os + [o]), Ids(os) + [o.id];
    assert |l| == |r|;
    forall i | 0 <= i < |l| ensures l[i] == r[i] {
      if i < |os| { assert (os + [o])[i] == os[i]; }
    }
  }

  /** One more order extends the attempted and cancelled lists by at most that order. */
  lemma CancelStep(orders: seq<Order>, i: int, newStopLoss: real, cancelOrder: OrderId -> bool)
    requires 0 <= i < |orders|
    ensures Attempted(orders[..i + 1], newStopLoss)
            == Attempted(orders[..i], newStopLoss) + (if Supersedes(newStopLoss, orders[i]) then [orders[i]] else [])
    ensures Cancelled(orders[..i + 1], newStopLoss, cancelOrder)
            == Cancelled(orders[..i], newStopLoss, cancelOrder)
               + (if Supersedes(newStopLoss, orders[i]) && cancelOrder(orders[i].id) then [orders[i]] else [])
  {
    assert orders[..i + 1][..i] == orders[..i];
  }

  /** With no superseded order, nothing is cancelled. */
  lemma {:induction false} NothingSupersededNothingCancelled(orders: seq<Order>, newStopLoss: real, cancelOrder: OrderId -> bool)
    requires forall o | o in orders :: !Supersedes(newStopLoss, o)
    ensures Cancelled(orders, newStopLoss, cancelOrder) == []
    decreases |orders|
  {
    if orders != [] {
      assert orders[|orders| - 1] in orders;
      assert forall o | o in orders[..|orders| - 1] :: o in orders;
      NothingSupersededNothingCancelled(orders[..|orders| - 1], newStopLoss, cancelOrder);
    }
  }

  /** An order is cancelled exactly when it is superseded and its cancel succeeds. */
  lemma {:induction false} CancelledIff(orders: seq<Order>, newStopLoss: real, cancelOrder: OrderId -> bool, o: Order)
    ensures o in Cancelled(orders, newStopLoss, cancelOrder)
            <==> o in orders && Supersedes(newStopLoss, o) && cancelOrder(o.id)
    decreases |orders|
  {
    if orders != [] {
      var init := orders[..|orders| - 1];
      assert orders == init + [orders[|orders| - 1]];
      CancelledIff(init, newStopLoss, cancelOrder, o);
    }
  }

  /** Every cancel request either succeeds or fails: failed cancels free no amount. */
  lemma {:induction false} AttemptedAmountSplits(orders: seq<Order>, newStopLoss: real, cancelOrder: OrderId -> bool)
    ensures TotalAmount(Attempted(orders, newStopLoss))
            == TotalAmount(Cancelled(orders, newStopLoss, cancelOrder))
               + TotalAmount(FailedCancels(orders, newStopLoss, cancelOrder))
    decreases |orders|
  {
    if orders != [] {
      var init := orders[..|orders| - 1];
      var o := orders[|orders| - 1];
      AttemptedAmountSplits(init, newStopLoss, cancelOrder);
      var a, c, f := Attempted(init, newStopLoss), Cancelled(init, newStopLoss, cancelOrder),
                     FailedCancels(init, newStopLoss, cancelOrder);
      assert Attempted(orders, newStopLoss) == a + (if Supersedes(newStopLoss, o) then [o] else []);
      assert Cancelled(orders, newStopLoss, cancelOrder)
             == c + (if Supersedes(newStopLoss, o) && cancelOrder(o.id) then [o] else []);
      assert FailedCancels(orders, newStopLoss, cancelOrder)
             == f + (if Supersedes(newStopLoss, o) && !cancelOrder(o.id) then [o] else []);
      if Supersedes(newStopLoss, o) {
        TotalAmountAppend(a, o);
        if cancelOrder(o.id) {
          TotalAmountAppend(c, o);
          assert a + [] == a && f + [] == f;
        } else {
          TotalAmountAppend(f, o);
          assert c + [] == c;
        }
      } else {
        assert a + [] == a && c + [] == c && f + [] == f;
      }
    }
  }

  /**
   * _cancel_active_orders_with_lower_stop_loss: ask the exchange to cancel
   * every order triggering below the new level; return the amount and the
   * ids of the orders whose cancellation succeeded, in iteration order.
   */
  method CancelActiveOrdersWithLowerStopLoss(orders: seq<Order>, newStopLoss: real, cancelOrder: OrderId -> bool)
    returns (totalAmount: real, cancelledIds: seq<OrderId>, ghost requests: seq<OrderId>)
    ensures totalAmount == TotalAmount(Cancelled(orders, newStopLoss, cancelOrder))
    ensures cancelledIds == Ids(Cancelled(orders, newStopLoss, cancelOrder))
    ensures requests == Ids(Attempted(orders, newStopLoss))
  {
    totalAmount, cancelledIds, requests := 0.0, [], [];
    for i := 0 to |orders|
      invariant totalAmount == TotalAmount(Cancelled(orders[..i], newStopLoss, cancelOrder))
      invariant cancelledIds == Ids(Cancelled(orders[..i], newStopLoss, cancelOrder))
      invariant requests == Ids(Attempted(orders[..i], newStopLoss))
    {
      var order := orders[i];
      CancelStep(orders, i, newStopLoss, cancelOrder);
      ghost var attempted := Attempted(orders[..i], newStopLoss);
      ghost var cancelled := Cancelled(orders[..i], newStopLoss, cancelOrder);
      if newStopLoss > order.stopPrice {
        IdsAppend(attempted, order);
        requests := requests + [order.id];
        var ok := cancelOrder(order.id);
        if ok {
          TotalAmountAppend(cancelled, order);
          IdsAppend(cancelled, order);
          totalAmount := totalAmount + order.amount;
          cancelledIds := cancelledIds + [order.id];
        } else {
          assert cancelled + [] == cancelled;
        }
      } else {
        assert attempted + [] == attempted && cancelled + [] == cancelled;
      }
    }
    assert orders[..|orders|] == orders;
  }

  // ---------------------------------------------------------------------
  // Tagging trades that reached the trailing start
  // ---------------------------------------------------------------------

  /** The stop price is above both the minimal-benefit price and the absolute floor. */
  predicate ReachesTrailingStart(t: Trade, stopPrice: real, cfg: TrailingConfig)
  {
    && stopPrice > t.entryPrice * (1.0 + cfg.minimalBenefitToStartTrailing / 100.0)
    && stopPrice > cfg.minPriceToStartTrailing
  }

  /** A trade without an exit order that reached the trailing start. */
  predicate Eligible(t: Trade, stopPrice: real, cfg: TrailingConfig)
  {
    t.exitOrderId == NO_EXIT_ORDER && ReachesTrailingStart(t, stopPrice, cfg)
  }

  function TagOne(t: Trade, stopPrice: real, cfg: TrailingConfig): Trade
  {
    if Eligible(t, stopPrice, cfg) then t.(exitOrderId := PENDING_GROUP) else t
  }

  /** The trade list after the tagging loop. */
  function Tagged(trades: seq<Trade>, stopPrice: real, cfg: TrailingConfig): (r: seq<Trade>)
    ensures |r| == |trades|
  {
    seq(|trades|, i requires 0 <= i < |trades| => TagOne(trades[i], stopPrice, cfg))
  }

  /** Sum of the sizes of the eligible trades. */
  function NewTradesAmount(trades: seq<Trade>, stopPrice: real, cfg: TrailingConfig): real
    decreases |trades|
  {
    if trades == [] then 0.0
    else
      var t := trades[|trades| - 1];
      NewTradesAmount(trades[..|trades| - 1], stopPrice, cfg) + (if Eligible(t, stopPrice, cfg) then t.size else 0.0)
  }

  /**
   * Tagging changes a trade exactly when it is eligible, and then only its
   * exit_order_id, to the pending-group tag.
   */
  lemma TaggedAt(trades: seq<Trade>, stopPrice: real, cfg: TrailingConfig, i: int)
    requires 0 <= i < |trades|
    ensures Tagged(trades, stopPrice, cfg)[i] != trades[i] <==> Eligible(trades[i], stopPrice, cfg)
    ensures Eligible(trades[i], stopPrice, cfg)
            ==> Tagged(trades, stopPrice, cfg)[i] == trades[i].(exitOrderId := PENDING_GROUP)
  {
  }

  /** A trade that already has an exit id (a live order or a leftover tag) adds nothing, whatever its size. */
  lemma {:induction false} TaggedTradeNotRecounted(trades: seq<Trade>, stopPrice: real, cfg: TrailingConfig, i: int, size: real)
    requires 0 <= i < |trades|
    requires trades[i].exitOrderId != NO_EXIT_ORDER
    ensures NewTradesAmount(trades[i := trades[i].(size := size)], stopPrice, cfg)
            == NewTradesAmount(trades, stopPrice, cfg)
    decreases |trades|
  {
    var other := trades[i := trades[i].(size := size)];
    var n := |trades| - 1;
    assert other[..n] == if i == n then trades[..n] else trades[..n][i := trades[i].(size := size)];
    if i < n {
      TaggedTradeNotRecounted(trades[..n], stopPrice, cfg, i, size);
    }
  }

  /** No eligible trade, no new amount. */
  lemma {:induction false} NoEligibleNoAmount(trades: seq<Trade>, stopPrice: real, cfg: TrailingConfig)
    requires forall t | t in trades :: !Eligible(t, stopPrice, cfg)
    ensures NewTradesAmount(trades, stopPrice, cfg) == 0.0
    decreases |trades|
  {
    if trades != [] {
      assert trades[|trades| - 1] in trades;
      assert forall t | t in trades[..|trades| - 1] :: t in trades;
      NoEligibleNoAmount(trades[..|trades| - 1], stopPrice, cfg);
    }
  }

  /**
   * The tagging loop reads minimal_benefit_to_start_trailing for every trade
   * without an exit order, and min_price_to_start_trailing once the benefit
   * test passes. It raises when the attribute it reads was never set (None).
   */
  predicate RaisesOn(t: Trade, stopPrice: real, minimalBenefit: Option<real>, minPrice: Option<real>)
  {
    && t.exitOrderId == NO_EXIT_ORDER
    && (|| minimalBenefit.None?
        || (stopPrice > t.entryPrice * (1.0 + minimalBenefit.value / 100.0) && minPrice.None?))
  }

  predicate TaggingRaises(trades: seq<Trade>, stopPrice: real, minimalBenefit: Option<real>, minPrice: Option<real>)
    decreases |trades|
  {
    trades != [] && (RaisesOn(trades[0], stopPrice, minimalBenefit, minPrice)
                     || TaggingRaises(trades[1..], stopPrice, minimalBenefit, minPrice))
  }

  /** The loop raises exactly when some trade it judges needs an unset attribute. */
  lemma {:induction false} TaggingRaisesIff(trades: seq<Trade>, stopPrice: real, minimalBenefit: Option<real>,
                                            minPrice: Option<real>)
    ensures TaggingRaises(trades, stopPrice, minimalBenefit, minPrice)
            <==> exists t | t in trades :: RaisesOn(t, stopPrice, minimalBenefit, minPrice)
    decreases |trades|
  {
    if trades != [] {
      TaggingRaisesIff(trades[1..], stopPrice, minimalBenefit, minPrice);
      assert forall t | t in trades :: t == trades[0] || t in trades[1..];
    }
  }

  /** With both trailing-start attributes set, the tagging loop never raises. */
  lemma SetAttributesNeverRaise(trades: seq<Trade>, stopPrice: real, minimalBenefit: Option<real>,
                                minPrice: Option<real>)
    requires minimalBenefit.Some? && minPrice.Some?
    ensures !TaggingRaises(trades, stopPrice, minimalBenefit, minPrice)
  {
    TaggingRaisesIff(trades, stopPrice, minimalBenefit, minPrice);
  }

  /**
   * When the tagging loop does not raise although an attribute is unset,
   * no trade is eligible whatever value stands in for the unset attribute,
   * so nothing is tagged or counted.
   */
  lemma UnsetAttributeTagsNothing(trades: seq<Trade>, stopPrice: real, bandLowPct: real,
                                  minimalBenefit: Option<real>, minPrice: Option<real>,
                                  benefitStandIn: real, minPriceStandIn: real)
    requires minimalBenefit.None? || minPrice.None?
    requires !TaggingRaises(trades, stopPrice, minimalBenefit, minPrice)
    ensures var cfg := TrailingConfig(bandLowPct, ValueOr(minimalBenefit, benefitStandIn),
                                      ValueOr(minPrice, minPriceStandIn));
            && Tagged(trades, stopPrice, cfg) == trades
            && NewTradesAmount(trades, stopPrice, cfg) == 0.0
  {
    var cfg := TrailingConfig(bandLowPct, ValueOr(minimalBenefit, benefitStandIn),
                              ValueOr(minPrice, minPriceStandIn));
    TaggingRaisesIff(trades, stopPrice, minimalBenefit, minPrice);
    assert forall t | t in trades :: !RaisesOn(t, stopPrice, minimalBenefit, minPrice);
    NoEligibleNoAmount(trades, stopPrice, cfg);
  }

  /**
   * The tagging loop of manage_trailing_stop_losses, over the status's trade
   * list in place: returns the summed size of the trades it tagged.
   */
  method TagTradesReachingTrailingStart(status: BotStatus, stopPrice: real, cfg: TrailingConfig)
    returns (amount: real)
    modifies status
    ensures status.activeTrades == Tagged(old(status.activeTrades), stopPrice, cfg)
    ensures amount == NewTradesAmount(old(status.activeTrades), stopPrice, cfg)
    ensures status.activeOrders == old(status.activeOrders) && status.budgetFree == old(status.budgetFree)
  {
    ghost var trades := status.activeTrades;
    amount := 0.0;
    var i := 0;
    while i < |status.activeTrades|
      invariant |status.activeTrades| == |trades|
      invariant 0 <= i <= |trades|
      invariant forall j | 0 <= j < i :: status.activeTrades[j] == TagOne(trades[j], stopPrice, cfg)
      invariant forall j | i <= j < |trades| :: status.activeTrades[j] == trades[j]
      invariant amount == NewTradesAmount(trades[..i], stopPrice, cfg)
      invariant status.activeOrders == old(status.activeOrders) && status.budgetFree == old(status.budgetFree)
    {
      var trade := status.activeTrades[i];
      assert trade == trades[i];
      assert trades[..i + 1][..i] == trades[..i];
      if trade.exitOrderId == NO_EXIT_ORDER {
        if stopPrice > trade.entryPrice * (1.0 + cfg.minimalBenefitToStartTrailing / 100.0)
           && stopPrice > cfg.minPriceToStartTrailing {
          status.activeTrades := status.activeTrades[i := trade.(exitOrderId := PENDING_GROUP)];
          amount := amount + trade.size;
        }
      }
      i := i + 1;
    }
    assert trades[..|trades|] == trades;
    assert status.activeTrades == Tagged(trades, stopPrice, cfg);
  }

  // ---------------------------------------------------------------------
  // Re-pointing trades to the grouped order
  // ---------------------------------------------------------------------

  function RepointOne(t: Trade, ids: seq<OrderId>, newId: OrderId, exitPrice: real): Trade
  {
    if t.exitOrderId in ids then t.(exitOrderId := newId, exitPrice := exitPrice) else t
  }

  /** The trade list after the re-pointing loop. */
  function Repointed(trades: seq<Trade>, ids: seq<OrderId>, newId: OrderId, exitPrice: real): (r: seq<Trade>)
    ensures |r| == |trades|
  {
    seq(|trades|, i requires 0 <= i < |trades| => RepointOne(trades[i], ids, newId, exitPrice))
  }

  /**
   * The re-pointing loop of manage_trailing_stop_losses: every trade whose
   * exit_order_id is among ids now references the new order, with the new
   * stop level as its provisional exit price.
   */
  method RepointTrades(status: BotStatus, ids: seq<OrderId>, newId: OrderId, exitPrice: real)
    modifies status
    ensures status.activeTrades == Repointed(old(status.activeTrades), ids, newId, exitPrice)
    ensures status.activeOrders == old(status.activeOrders) && status.budgetFree == old(status.budgetFree)
  {
    ghost var trades := status.activeTrades;
    var i := 0;
    while i < |status.activeTrades|
      invariant |status.activeTrades| == |trades|
      invariant 0 <= i <= |trades|
      invariant forall j | 0 <= j < i :: status.activeTrades[j] == RepointOne(trades[j], ids, newId, exitPrice)
      invariant forall j | i <= j < |trades| :: status.activeTrades[j] == trades[j]
      invariant status.activeOrders == old(status.activeOrders) && status.budgetFree == old(status.budgetFree)
    {
      var trade := status.activeTrades[i];
      assert trade == trades[i];
      if trade.exitOrderId in ids {
        status.activeTrades := status.activeTrades[i := trade.(exitOrderId := newId, exitPrice := exitPrice)];
      }
      i := i + 1;
    }
    assert status.activeTrades == Repointed(trades, ids, newId, exitPrice);
  }

  // ---------------------------------------------------------------------
  // One full cycle
  // ---------------------------------------------------------------------

  /** What one cycle decided and asked of the exchange. */
  datatype CycleReport = CycleReport(
    levels: StopLevels,
    cancelledIds: seq<OrderId>,
    cancelledAmount: real,
    newTradesAmount: real,
    request: Option<StopRequest>,
    newOrder: Option<OrderId>)

  datatype CycleResult = CycleResult(trades: seq<Trade>, report: CycleReport)

  /** The grouped stop order requested for an amount, if it reaches the exchange minimum. */
  function GroupedRequest(amount: real, minAmount: real, levels: StopLevels): (r: Option<StopRequest>)
  {
    if amount >= minAmount then Some(StopRequest(amount, levels.newStopLoss, levels.stopPrice)) else None
  }

  /** manage_trailing_stop_losses as a function of the trades and orders it starts from. */
  function TrailingCycle(trades: seq<Trade>, orders: seq<Order>, newStopLoss: real, estimatedClose: real,
                         cfg: TrailingConfig, minAmount: real, exchange: StopLossExchange): CycleResult
  {
    var levels := GuardedLevels(newStopLoss, cfg.bandLowPct, estimatedClose);
    var cancelled := Cancelled(orders, levels.newStopLoss, exchange.cancelOrder);
    var tagged := Tagged(trades, levels.stopPrice, cfg);
    var newAmount := NewTradesAmount(trades, levels.stopPrice, cfg);
    var request := GroupedRequest(TotalAmount(cancelled) + newAmount, minAmount, levels);
    var newOrder := if request.Some? then exchange.stopLoss(request.value) else None;
    var finalTrades :=
      if newOrder.Some?
      then Repointed(tagged, Ids(cancelled) + [PENDING_GROUP], newOrder.value, levels.newStopLoss)
      else tagged;
    CycleResult(finalTrades,
                CycleReport(levels, Ids(cancelled), TotalAmount(cancelled), newAmount, request, newOrder))
  }

  /**
   * A grouped order is requested exactly when the cancelled amount plus the
   * newly tagged trades' sizes reaches the exchange minimum, for that total,
   * triggering at the guarded stop level with the guarded stop price as limit.
   */
  lemma GroupedOrderRequestedIff(trades: seq<Trade>, orders: seq<Order>, newStopLoss: real, estimatedClose: real,
                                 cfg: TrailingConfig, minAmount: real, exchange: StopLossExchange)
    ensures var r := TrailingCycle(trades, orders, newStopLoss, estimatedClose, cfg, minAmount, exchange).report;
            && (r.request.Some? <==> r.cancelledAmount + r.newTradesAmount >= minAmount)
            && (r.request.Some? ==>
                  r.request.value == StopRequest(r.cancelledAmount + r.newTradesAmount,
                                                 r.levels.newStopLoss, r.levels.stopPrice))
            && (r.request.None? ==> r.newOrder.None?)
  {
  }

  /** The trade's exit id refers to something this cycle's grouped order replaces. */
  predicate Covered(t: Trade, cancelledIds: seq<OrderId>, stopPrice: real, cfg: TrailingConfig)
  {
    Eligible(t, stopPrice, cfg) || t.exitOrderId == PENDING_GROUP || t.exitOrderId in cancelledIds
  }

  /**
   * Each trade's fate in one cycle: when the grouped order is placed, exactly
   * the covered trades (newly eligible, left tagged earlier, or protected by
   * a cancelled order) take its id and the new stop level as exit price;
   * otherwise the eligible trades are left tagged. Nothing else changes.
   */
  lemma TrailingCycleTradeAt(trades: seq<Trade>, orders: seq<Order>, newStopLoss: real, estimatedClose: real,
                             cfg: TrailingConfig, minAmount: real, exchange: StopLossExchange, i: int)
    requires 0 <= i < |trades|
    ensures var c := TrailingCycle(trades, orders, newStopLoss, estimatedClose, cfg, minAmount, exchange);
            var t := trades[i];
            && |c.trades| == |trades|
            && (c.report.newOrder.Some? && Covered(t, c.report.cancelledIds, c.report.levels.stopPrice, cfg)
                ==> c.trades[i] == t.(exitOrderId := c.report.newOrder.value, exitPrice := c.report.levels.newStopLoss))
            && (c.report.newOrder.None? && Eligible(t, c.report.levels.stopPrice, cfg)
                ==> c.trades[i] == t.(exitOrderId := PENDING_GROUP))
            && (c.report.newOrder.None? && !Eligible(t, c.report.levels.stopPrice, cfg) ==> c.trades[i] == t)
            && (!Covered(t, c.report.cancelledIds, c.report.levels.stopPrice, cfg) ==> c.trades[i] == t)
  {
    var c := TrailingCycle(trades, orders, newStopLoss, estimatedClose, cfg, minAmount, exchange);
    var levels := c.report.levels;
    var tagged := Tagged(trades, levels.stopPrice, cfg);
    TaggedAt(trades, levels.stopPrice, cfg, i);
    if c.report.newOrder.Some? {
      assert c.trades[i] == RepointOne(tagged[i], c.report.cancelledIds + [PENDING_GROUP],
                                       c.report.newOrder.value, levels.newStopLoss);
    }
  }

  /**
   * A trade left tagged by an earlier cycle whose order failed is not counted
   * again in the new amount, yet is re-pointed to the next grouped order placed.
   */
  lemma LeftoverTagRepointedButNotCounted(trades: seq<Trade>, orders: seq<Order>, newStopLoss: real,
                                          estimatedClose: real, cfg: TrailingConfig, minAmount: real,
                                          exchange: StopLossExchange, i: int, size: real)
    requires 0 <= i < |trades| && trades[i].exitOrderId == PENDING_GROUP
    ensures var c := TrailingCycle(trades, orders, newStopLoss, estimatedClose, cfg, minAmount, exchange);
            && c.report.newTradesAmount
               == NewTradesAmount(trades[i := trades[i].(size := size)], c.report.levels.stopPrice, cfg)
            && (c.report.newOrder.Some? ==> c.trades[i].exitOrderId == c.report.newOrder.value)
            && (c.report.newOrder.None? ==> c.trades[i].exitOrderId == PENDING_GROUP)
  {
    var c := TrailingCycle(trades, orders, newStopLoss, estimatedClose, cfg, minAmount, exchange);
    TaggedTradeNotRecounted(trades, c.report.levels.stopPrice, cfg, i, size);
    TrailingCycleTradeAt(trades, orders, newStopLoss, estimatedClose, cfg, minAmount, exchange, i);
  }

  /**
   * When a guard zeroes the levels, a non-negative trailing floor keeps every
   * trade untagged, and orders with non-negative triggers are not cancelled.
   */
  lemma GuardedCycleTagsNothing(trades: seq<Trade>, orders: seq<Order>, newStopLoss: real, estimatedClose: real,
                                cfg: TrailingConfig, minAmount: real, exchange: StopLossExchange)
    requires StopPriceFor(newStopLoss, cfg.bandLowPct) < newStopLoss * 0.8 || newStopLoss > estimatedClose
    requires cfg.minPriceToStartTrailing >= 0.0
    requires forall o | o in orders :: o.stopPrice >= 0.0
    ensures var c := TrailingCycle(trades, orders, newStopLoss, estimatedClose, cfg, minAmount, exchange);
            && c.report.newTradesAmount == 0.0
            && c.report.cancelledIds == []
            && (c.report.newOrder.None? ==> c.trades == trades)
  {
    var levels := GuardedLevels(newStopLoss, cfg.bandLowPct, estimatedClose);
    assert levels == StopLevels(0.0, 0.0);
    NoEligibleNoAmount(trades, 0.0, cfg);
    NothingSupersededNothingCancelled(orders, 0.0, exchange.cancelOrder);
    assert Tagged(trades, 0.0, cfg) == trades;
  }

  /**
   * manage_trailing_stop_losses over the status object: the trade list ends
   * as TrailingCycle describes; the order list and budget are not touched.
   */
  method ManageTrailingStopLosses(status: BotStatus, newStopLoss: real, estimatedClose: real,
                                  cfg: TrailingConfig, minAmount: real, exchange: StopLossExchange)
    returns (report: CycleReport)
    modifies status
    ensures var c := TrailingCycle(old(status.activeTrades), old(status.activeOrders), newStopLoss,
                                   estimatedClose, cfg, minAmount, exchange);
            status.activeTrades == c.trades && report == c.report
    ensures status.activeOrders == old(status.activeOrders) && status.budgetFree == old(status.budgetFree)
  {
    var levels := GuardedLevels(newStopLoss, cfg.bandLowPct, estimatedClose);
    var cancelledAmount, cancelledIds, _ := CancelActiveOrdersWithLowerStopLoss(
      status.activeOrders, levels.newStopLoss, exchange.cancelOrder);
    var newTradesAmount := TagTradesReachingTrailingStart(status, levels.stopPrice, cfg);
    var grouped := cancelledAmount + newTradesAmount;
    var request: Option<StopRequest> := None;
    var newOrder: Option<OrderId> := None;
    if grouped >= minAmount {
      request := Some(StopRequest(grouped, levels.newStopLoss, levels.stopPrice));
      newOrder := exchange.stopLoss(request.value);
      if newOrder.Some? {
        RepointTrades(status, cancelledIds + [PENDING_GROUP], newOrder.value, levels.newStopLoss);
      }
    }
    report := CycleReport(levels, cancelledIds, cancelledAmount, newTradesAmount, request, newOrder);
  }
}
