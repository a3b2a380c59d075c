/** The vocabulary strategies speak: the per-symbol context dict, entry and exit signals,
    and the order a strategy submits. */
module Signals {
  import opened Wrappers
  import opened Execution
  import opened Regime

  /** A strategy's per-symbol context dict; each key may be absent. After an entry it holds
      stop_loss, entry_price, trailing_stop (possibly infinite) and entry_bar. */
  datatype Context = Context(
    stopLoss: Option<real>,
    entryPrice: Option<real>,
    trailingStop: Option<ExtReal>,
    entryBar: Option<int>)

  const EmptyContext := Context(None, None, None, None)

  datatype OrderKind = Market | Limit | Stop

  /** The reason strings the strategies, the router and the engine attach to exits. */
  datatype Reason =
    | Signal                       // the default reason of an entry order
    | CloseBelowSma | CloseAboveSma | StateChanged | StopOrTrailHit
    | TargetHitMidBand | StopLossHit
    | BreakoutExit | RegimeNotAllowed(state: MarketState)
    | MaxLoss                      // the circuit breaker's flatten orders

  /** An entry signal; a missing order_type means market and a missing price means the close. */
  datatype EntrySignal = EntrySignal(action: Side, stopLoss: real, kind: Option<OrderKind>, price: Option<real>)

  datatype ExitSignal = ExitSignal(action: Side, reason: Reason)

  /** What should_exit returns together with the context it leaves behind (the trailing stop
      may have moved). */
  datatype ExitDecision = ExitDecision(signal: Option<ExitSignal>, context: Context)

  /** The arguments of one submit_order call. */
  datatype OrderRequest = OrderRequest(
    symbol: string, side: Side, qty: real, kind: OrderKind, price: real,
    timestamp: int, strategyId: string, reason: Reason)
}
