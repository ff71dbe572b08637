// The collaborators the order executor talks to, reduced to what it reads from
// them: the order dictionary (dict/order), the exchange adapters reached through
// the exchange manager, the ticker cache and the configuration lookup. Their
// implementations are not part of this model; every one of them is an input.

module Boundary {

  datatype Option<+T> = None | Some(value: T)

  /** What a call into an exchange adapter gives back: a value, or a thrown error. */
  datatype Reply<+T> = Returned(value: T) | Threw

  /**
   * An order request of the order dictionary. `adjustPrice` is the answer of
   * `order.hasAdjustedPrice()`: the order follows the order book price.
   */
  datatype Order = Order(symbol: string, side: string, price: real, amount: real, adjustPrice: bool)

  /**
   * An order as an exchange reports it. `retry` is the exchange's request to place
   * the order again (a post-only order that would have crossed the book).
   */
  datatype ExchangeOrder = ExchangeOrder(id: string, status: string, price: real, retry: bool)

  datatype Ticker = Ticker(bid: real, ask: real)

  /** The request of `Order.createPriceUpdateOrder`. */
  datatype PriceUpdate = PriceUpdate(id: string, price: real)

  /** An entry of the executor's `orders` list. */
  datatype TrackedOrder = TrackedOrder(id: string, exchange: string, exchangeOrder: ExchangeOrder, order: Order)

  /**
   * One exchange adapter. Every call takes the clock (milliseconds) at which it is
   * made, so an adapter may answer the same question differently over time.
   * `findOrderById` answers `None` for an order it does not know.
   */
  datatype Exchange = Exchange(
    order: (int, Order) -> Reply<ExchangeOrder>,
    findOrderById: (int, string) -> Reply<Option<ExchangeOrder>>,
    updateOrder: (int, string, PriceUpdate) -> Reply<ExchangeOrder>,
    cancelOrder: (int, string) -> Reply<ExchangeOrder>,
    cancelAll: (int, string) -> Reply<seq<ExchangeOrder>>)

  /** The factory functions of the order dictionary, whose definitions are not modelled. */
  datatype OrderFactory = OrderFactory(
    createRetryOrder: Order -> Order,
    // the same factory function applied to a tracked entry instead of an order request
    createRetryOrderFromEntry: TrackedOrder -> Order,
    createRetryOrderWithPriceAdjustment: (Order, real) -> Order,
    createPriceUpdateOrder: (string, real) -> PriceUpdate)

  /**
   * The two configuration keys the executor reads: `order.retry` and
   * `order.retry_ms`, each `None` when it is not configured.
   */
  datatype Config = Config(retry: Option<int>, retryMs: Option<int>)

  /**
   * Everything outside the executor: the exchange manager (`exchanges`, where a
   * missing name is an unknown exchange), the ticker cache
   * (`tickers(exchange, symbol, maxAgeMs, now)` is `getIfUpToDate`), the order
   * factory and the configuration.
   */
  datatype Venue = Venue(
    exchanges: map<string, Exchange>,
    tickers: (string, string, int, int) -> Option<Ticker>,
    factory: OrderFactory,
    config: Config)

  /** `systemUtil.getConfig(key, default)` for a key whose value is `setting`. */
  function GetConfig(setting: Option<int>, default: int): int {
    if setting.Some? then setting.value else default
  }
}
