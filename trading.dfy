/**
 * Shared vocabulary of the two strategy plugins: the trades and stop orders
 * the host framework keeps in a bot's status, and the status object itself,
 * whose trade list the trailing-stop engine updates in place.
 */
module Trading {

  datatype Option<T> = None | Some(value: T)

  /** The value of an optional number, or a stand-in when it is absent. */
  function ValueOr(x: Option<real>, standIn: real): (v: real)
    ensures x.Some? ==> v == x.value
    ensures x.None? ==> v == standIn
  {
    if x.Some? then x.value else standIn
  }

  /** Exchange order ids and the values a trade's exit_order_id can take. */
  type OrderId = string

  /** exit_order_id of a trade that has no exit order yet. */
  const NO_EXIT_ORDER: OrderId := "0"

  /** exit_order_id of a trade tagged for the next grouped stop order. */
  const PENDING_GROUP: OrderId := "new_grouped_order"

  /**
   * One open position. Times are milliseconds since the Unix epoch (UTC);
   * amounts and prices are quote or base currency quantities.
   */
  datatype Trade = Trade(
    entryTime: int,
    entryCost: real,
    entryPrice: real,
    size: real,
    exitOrderId: OrderId,
    exitPrice: real)

  /** A resting protective stop order. */
  datatype Order = Order(id: OrderId, amount: real, stopPrice: real)

  /** The host-owned status of one bot: its trades, its live orders and its free budget. */
  class BotStatus {
    var activeTrades: seq<Trade>
    var activeOrders: seq<Order>
    var budgetFree: real

    constructor(trades: seq<Trade>, orders: seq<Order>, free: real)
      ensures activeTrades == trades && activeOrders == orders && budgetFree == free
    {
      activeTrades := trades;
      activeOrders := orders;
      budgetFree := free;
    }
  }

  function Min(a: real, b: real): (m: real)
    ensures m <= a && m <= b && (m == a || m == b)
  {
    if a <= b then a else b
  }
}
