/** The regime router of router/router.py: one strategy per regime, a per-symbol cooldown
    after every regime switch, and a forced flatten with a context reset on the switch. */
module Routing {
  import opened Wrappers
  import opened Bars
  import opened Ledger
  import opened Execution
  import opened Regime
  import opened Signals
  import opened Strategies
  import MeanReversion
  import TrendBreakout

  /** _map_state_to_strategy. */
  function MapStateToStrategy(state: MarketState): (r: Option<string>)
    ensures r == Some("TrendUp") <==> state == TrendUp
    ensures r == Some("TrendDown") <==> state == TrendDown
    ensures r == Some("RangeMeanReversion") <==> state == Sideways
    ensures r.None? <==> state == NoTrade || state == Volatile
  {
    match state
    case TrendUp => Some("TrendUp")
    case TrendDown => Some("TrendDown")
    case Sideways => Some("RangeMeanReversion")
    case _ => None
  }

  /** The order a strategy's on_bar returns: its exit rule's order when the symbol is held,
      else its entry rule's order. */
  predicate OnBarOrder(order: Option<OrderRequest>, kind: PolicyKind, symbol: string, bars: seq<Bar>, i: nat,
                       state: MarketState, qty: real, ctx: Context, ts: MeanReversion.TradeState, gate: RiskGate, cash: real,
                       positions: map<string, Position>, keys: seq<string>, currentPrices: map<string, real>)
    requires i < |bars| && WellFormed(kind) && forall k :: k in keys ==> k in positions
  {
    order == OnBarResult(kind, symbol, bars, i, state, qty, ctx, ts, gate, cash, positions, keys, currentPrices)
  }

  /** What one route call did. */
  datatype RouteOutcome =
    | InCooldown
    | Switched(closing: Option<ExecResult>)
    | NoStrategy
    | NotAllowed
    | Dispatched(strategyName: string, order: Option<OrderRequest>)

  /** The side that closes a held position. */
  function ClosingSide(qty: real): string {
    if qty > 0.0 then "sell" else "cover"
  }

  /** A forced close leaves the symbol flat; it books a trade exactly when something was held,
      a sell of the whole long or a cover of the whole short at the close, attributed to the
      router and charged the broker's commission on that notional. */
  ghost predicate ForceCloseSpec(symbol: string, bar: Bar, rate: real, closing: Option<ExecResult>,
                                 before: Position, after: Position) {
    && after == Flat
    && (closing.None? <==> before.qty == 0.0)
    && (closing.Some? ==>
          && closing.value.Filled?
          && closing.value.record == TradeRecord(bar.time, symbol, if before.qty > 0.0 then Sell else Cover,
                                                 Abs(before.qty), bar.close,
                                                 Commission(Abs(before.qty), bar.close, rate), "Router"))
  }

  /** The position half of _handle_switch on a copy of the ledger: nothing when flat, otherwise
      the closing trade for the whole position at the bar's close with no slippage, and the
      ledger update it books. */
  function ForcedClose(b: Book, symbol: string, bar: Bar, rate: real): (r: (Option<ExecResult>, Book))
    requires BookValid(b)
    ensures BookValid(r.1)
  {
    var q := PositionIn(b, symbol).qty;
    if q == 0.0 then (None, b)
    else
      (Some(Filled(TradeRecord(bar.time, symbol, if q > 0.0 then Sell else Cover, Abs(q), bar.close,
                               Commission(Abs(q), bar.close, rate), "Router"))),
       Updated(b, symbol, -q, bar.close, Commission(Abs(q), bar.close, rate)))
  }

  /** The forced close is execute_order of the closing side for the whole position at the
      close, with zero slippage. */
  lemma ForcedCloseIsExecute(b: Book, symbol: string, bar: Bar, rate: real)
    requires BookValid(b) && PositionIn(b, symbol).qty != 0.0
    ensures var q := PositionIn(b, symbol).qty;
      var r := ForcedClose(b, symbol, bar, rate);
      r.0.Some? && (r.0.value, r.1) ==
        ExecuteOn(b, symbol, ClosingSide(q), Abs(q), bar.close, bar.time, 0.0, rate, "Router")
  {
    var q := PositionIn(b, symbol).qty;
    FullCloseFlattens(PositionIn(b, symbol), bar.close);
    assert ParseSide(ClosingSide(q)) == Some(if q > 0.0 then Sell else Cover);
    assert Delta(if q > 0.0 then Sell else Cover, Abs(q)) == -q;
  }

  /** A forced close flattens the symbol and books the closing trade exactly when something was
      held. */
  lemma ForcedCloseMeetsSpec(b: Book, symbol: string, bar: Bar, rate: real)
    requires BookValid(b)
    ensures var r := ForcedClose(b, symbol, bar, rate);
      ForceCloseSpec(symbol, bar, rate, r.0, PositionIn(b, symbol), PositionIn(r.1, symbol))
  {
    var pos := PositionIn(b, symbol);
    if pos.qty != 0.0 {
      FullCloseFlattens(pos, bar.close);
      assert Delta(ParseSide(ClosingSide(pos.qty)).value, Abs(pos.qty)) == -pos.qty;
    }
  }

  /** A forced close touches no other symbol, adds none, moves the cash by the closed notional
      less the commission, and changes nothing when flat. */
  lemma ForcedCloseFrame(b: Book, symbol: string, bar: Bar, rate: real)
    requires BookValid(b)
    ensures var r := ForcedClose(b, symbol, bar, rate);
      && r.1.positions - {symbol} == b.positions - {symbol}
      && r.1.positions.Keys <= b.positions.Keys
      && (r.0.None? ==> r.1 == b)
      && (r.0.Some? ==>
            r.1.cash == b.cash + PositionIn(b, symbol).qty * bar.close
                        - Commission(Abs(PositionIn(b, symbol).qty), bar.close, rate))
  {
    var pos := PositionIn(b, symbol);
    if pos.qty != 0.0 {
      ForcedCloseMeetsSpec(b, symbol, bar, rate);
      assert symbol !in ForcedClose(b, symbol, bar, rate).1.positions;
    }
  }

  /** Both halves together. */
  lemma ForcedCloseFlattens(b: Book, symbol: string, bar: Bar, rate: real)
    requires BookValid(b)
    ensures var r := ForcedClose(b, symbol, bar, rate);
      && ForceCloseSpec(symbol, bar, rate, r.0, PositionIn(b, symbol), PositionIn(r.1, symbol))
      && r.1.positions - {symbol} == b.positions - {symbol}
      && r.1.positions.Keys <= b.positions.Keys
      && (r.0.None? ==> r.1 == b)
      && (r.0.Some? ==>
            r.1.cash == b.cash + PositionIn(b, symbol).qty * bar.close
                        - Commission(Abs(PositionIn(b, symbol).qty), bar.close, rate))
  {
    ForcedCloseMeetsSpec(b, symbol, bar, rate);
    ForcedCloseFrame(b, symbol, bar, rate);
  }

  /** The position half of _handle_switch, at zero slippage. */
  method ForceClose(symbol: string, bar: Bar, broker: Broker) returns (closing: Option<ExecResult>)
    requires broker.Valid()
    modifies broker, broker.portfolio
    ensures broker.Valid()
    ensures (closing, broker.portfolio.Snapshot()) ==
      ForcedClose(old(broker.portfolio.Snapshot()), symbol, bar, broker.commissionRate)
    ensures broker.trades == old(broker.trades) + ClosingTrades(Switched(closing))
  {
    var pos := broker.portfolio.GetPosition(symbol);
    closing := None;
    if pos.qty != 0.0 {
      ForcedCloseIsExecute(broker.portfolio.Snapshot(), symbol, bar, broker.commissionRate);
      var r := broker.ExecuteOrder(symbol, ClosingSide(pos.qty), Abs(pos.qty), bar.close, bar.time, 0.0, "Router");
      closing := Some(r);
    }
  }

  /** The trade a route call adds to the broker's log: the forced close's record, if any. */
  function ClosingTrades(outcome: RouteOutcome): (t: seq<TradeRecord>)
    ensures |t| <= 1
    ensures t != [] <==> outcome.Switched? && outcome.closing.Some? && outcome.closing.value.Filled?
  {
    if outcome.Switched? && outcome.closing.Some? && outcome.closing.value.Filled? then [outcome.closing.value.record] else []
  }

  /** The router's own per-symbol state, as a value. */
  datatype RouterView = RouterView(symbolStates: map<string, MarketState>, cooldowns: map<string, int>)

  /** A strategy's per-symbol state, as a value. */
  datatype StrategyView = StrategyView(context: map<string, Context>, tradeState: map<string, MeanReversion.TradeState>,
                                       health: TrendBreakout.HealthStats)

  /** Every strategy is well formed. */
  predicate StrategiesValid(strategies: map<string, Strategy>) {
    forall n :: n in strategies ==> strategies[n].Valid()
  }

  /** The reset of _handle_switch on one strategy's view. */
  function ResetOne(v: StrategyView, n: string, symbol: string, oldState: MarketState): (r: StrategyView)
    ensures r.tradeState == v.tradeState && r.health == v.health
    ensures r.context - {symbol} == v.context - {symbol} && (symbol in r.context <==> symbol in v.context)
    ensures MapStateToStrategy(oldState) != Some(n) ==> r == v
    ensures MapStateToStrategy(oldState) == Some(n) && symbol in r.context ==> r.context[symbol] == EmptyContext
  {
    if MapStateToStrategy(oldState) == Some(n) && symbol in v.context then v.(context := v.context[symbol := EmptyContext])
    else v
  }

  /** The reset of _handle_switch on the strategies' views: the outgoing strategy's context entry
      for the symbol, if there is one, becomes empty. */
  function ResetView(views: map<string, StrategyView>, symbol: string, oldState: MarketState)
    : (r: map<string, StrategyView>)
    ensures r.Keys == views.Keys
  {
    map n | n in views :: ResetOne(views[n], n, symbol, oldState)
  }

  /** The dispatch half of route on values: no mapped strategy, a state it does not allow, or
      its on_bar on its own view and the ledger. */
  function DispatchOn(strategies: map<string, Strategy>, symbol: string, i: nat, bars: seq<Bar>, state: MarketState,
                      gate: RiskGate, currentPrices: map<string, real>, views: map<string, StrategyView>, b: Book)
    : (r: (RouteOutcome, map<string, StrategyView>))
    requires i < |bars| && BookValid(b) && StrategiesValid(strategies) && strategies.Keys <= views.Keys
    ensures r.0.NoStrategy? || r.0.NotAllowed? || r.0.Dispatched?
    ensures r.1.Keys == views.Keys
  {
    if MapStateToStrategy(state).None? || MapStateToStrategy(state).value !in strategies then (NoStrategy, views)
    else if state !in strategies[MapStateToStrategy(state).value].allowedStates then (NotAllowed, views)
    else
      RunOnBar(MapStateToStrategy(state).value, strategies[MapStateToStrategy(state).value].kind, symbol, i, bars,
               state, gate, currentPrices, views, b)
  }

  /** The mapped strategy's on_bar on its view: the order, and the view with the context and
      trade-state maps it leaves. */
  function RunOnBar(n: string, kind: PolicyKind, symbol: string, i: nat, bars: seq<Bar>, state: MarketState,
                    gate: RiskGate, currentPrices: map<string, real>, views: map<string, StrategyView>, b: Book)
    : (r: (RouteOutcome, map<string, StrategyView>))
    requires i < |bars| && BookValid(b) && WellFormed(kind) && n in views
    ensures r.1.Keys == views.Keys
  {
    (Dispatched(n, OnBarResult(kind, symbol, bars, i, state, PositionIn(b, symbol).qty,
                               ContextOf(views[n].context, symbol), TradeStateOf(views[n].tradeState, symbol), gate,
                               b.cash, b.positions, b.order, currentPrices)),
     views[n := StrategyView(
       OnBarContext(kind, views[n].context, views[n].tradeState, symbol, bars, i, state, PositionIn(b, symbol).qty,
                    OnBarResult(kind, symbol, bars, i, state, PositionIn(b, symbol).qty,
                                ContextOf(views[n].context, symbol), TradeStateOf(views[n].tradeState, symbol), gate,
                                b.cash, b.positions, b.order, currentPrices)),
       OnBarTradeState(kind, views[n].tradeState, symbol, state, PositionIn(b, symbol).qty), views[n].health)])
  }

  /** Dispatch picks the strategy the state maps to, runs it only in a state it allows, returns
      its on_bar order on its view and the ledger, and changes no other strategy's view. */
  lemma DispatchPicksMapped(strategies: map<string, Strategy>, symbol: string, i: nat, bars: seq<Bar>,
                            state: MarketState, gate: RiskGate, currentPrices: map<string, real>,
                            views: map<string, StrategyView>, b: Book)
    requires i < |bars| && BookValid(b) && StrategiesValid(strategies) && strategies.Keys <= views.Keys
    ensures var r := DispatchOn(strategies, symbol, i, bars, state, gate, currentPrices, views, b);
      && (r.0.NoStrategy? || r.0.NotAllowed? || r.0.Dispatched?)
      && (r.0.NoStrategy? <==> MapStateToStrategy(state).None? || MapStateToStrategy(state).value !in strategies)
      && (r.0.NotAllowed? <==>
            MapStateToStrategy(state).Some? && MapStateToStrategy(state).value in strategies
            && state !in strategies[MapStateToStrategy(state).value].allowedStates)
      && (!r.0.Dispatched? ==> r.1 == views)
      && (r.0.Dispatched? ==>
            && MapStateToStrategy(state) == Some(r.0.strategyName) && r.0.strategyName in strategies
            && state in strategies[r.0.strategyName].allowedStates
            && OnBarOrder(r.0.order, strategies[r.0.strategyName].kind, symbol, bars, i, state, PositionIn(b, symbol).qty,
                          ContextOf(views[r.0.strategyName].context, symbol),
                          TradeStateOf(views[r.0.strategyName].tradeState, symbol), gate, b.cash, b.positions, b.order,
                          currentPrices)
            && forall n :: n in views && n != r.0.strategyName ==> r.1[n] == views[n])
  {
  }

  /** The switch branch of route on values: record the new state, restart the cooldown, reset
      the outgoing strategy's context for the symbol and force-close it. */
  function SwitchOn(cooldownBars: int, rate: real, symbol: string, i: nat, bars: seq<Bar>, state: MarketState,
                    oldState: MarketState, view: RouterView, views: map<string, StrategyView>, b: Book)
    : (r: (RouteOutcome, RouterView, map<string, StrategyView>, Book))
    requires i < |bars| && BookValid(b)
    ensures BookValid(r.3) && r.2.Keys == views.Keys
  {
    (Switched(ForcedClose(b, symbol, bars[i], rate).0),
     RouterView(view.symbolStates[symbol := state], view.cooldowns[symbol := i + cooldownBars]),
     ResetView(views, symbol, oldState),
     ForcedClose(b, symbol, bars[i], rate).1)
  }

  /** The last branch of route on values: record the state and dispatch; the ledger is untouched. */
  function RecordOn(strategies: map<string, Strategy>, symbol: string, i: nat, bars: seq<Bar>, state: MarketState,
                    gate: RiskGate, currentPrices: map<string, real>, view: RouterView,
                    views: map<string, StrategyView>, b: Book)
    : (r: (RouteOutcome, RouterView, map<string, StrategyView>, Book))
    requires i < |bars| && BookValid(b) && StrategiesValid(strategies) && strategies.Keys <= views.Keys
    ensures r.2.Keys == views.Keys
  {
    (DispatchOn(strategies, symbol, i, bars, state, gate, currentPrices, views, b).0,
     RouterView(view.symbolStates[symbol := state], view.cooldowns),
     DispatchOn(strategies, symbol, i, bars, state, gate, currentPrices, views, b).1,
     b)
  }

  /** The part of route after the cooldown gate, on values: a changed state takes the switch
      branch, any other the recording and dispatch. */
  function RouteOpenOn(strategies: map<string, Strategy>, cooldownBars: int, rate: real, symbol: string, i: nat,
                       bars: seq<Bar>, state: MarketState, gate: RiskGate, currentPrices: map<string, real>,
                       view: RouterView, views: map<string, StrategyView>, b: Book)
    : (r: (RouteOutcome, RouterView, map<string, StrategyView>, Book))
    requires i < |bars| && BookValid(b) && StrategiesValid(strategies) && strategies.Keys <= views.Keys
    ensures BookValid(r.3) && r.2.Keys == views.Keys
  {
    if symbol in view.symbolStates && state != view.symbolStates[symbol] then
      SwitchOn(cooldownBars, rate, symbol, i, bars, state, view.symbolStates[symbol], view, views, b)
    else
      RecordOn(strategies, symbol, i, bars, state, gate, currentPrices, view, views, b)
  }

  /** route on values: a symbol still in its cooldown changes nothing; otherwise an expired
      cooldown is dropped and the rest of route runs. */
  function RouteOn(strategies: map<string, Strategy>, cooldownBars: int, rate: real, symbol: string, i: nat,
                   bars: seq<Bar>, state: MarketState, gate: RiskGate, currentPrices: map<string, real>,
                   view: RouterView, views: map<string, StrategyView>, b: Book)
    : (r: (RouteOutcome, RouterView, map<string, StrategyView>, Book))
    requires i < |bars| && BookValid(b) && StrategiesValid(strategies) && strategies.Keys <= views.Keys
    ensures BookValid(r.3) && r.2.Keys == views.Keys
  {
    if symbol in view.cooldowns && i <= view.cooldowns[symbol] then (InCooldown, view, views, b)
    else RouteOpenOn(strategies, cooldownBars, rate, symbol, i, bars, state, gate, currentPrices,
                     RouterView(view.symbolStates, view.cooldowns - {symbol}), views, b)
  }

  /** What route does, case by case: an active cooldown blocks everything; a changed state
      records it, restarts the cooldown, resets the outgoing strategy's context and force-closes
      the symbol; otherwise the state is recorded, the expired cooldown dropped, the ledger left
      alone and the mapped strategy dispatched. */
  lemma RouteCases(strategies: map<string, Strategy>, cooldownBars: int, rate: real, symbol: string, i: nat,
                   bars: seq<Bar>, state: MarketState, gate: RiskGate, currentPrices: map<string, real>,
                   view: RouterView, views: map<string, StrategyView>, b: Book)
    requires i < |bars| && BookValid(b) && StrategiesValid(strategies) && strategies.Keys <= views.Keys
    ensures var r := RouteOn(strategies, cooldownBars, rate, symbol, i, bars, state, gate, currentPrices, view, views, b);
      && (r.0 == InCooldown <==> symbol in view.cooldowns && i <= view.cooldowns[symbol])
      && (r.0 == InCooldown ==> r.1 == view && r.2 == views && r.3 == b)
      && (r.0.Switched? <==>
            !(symbol in view.cooldowns && i <= view.cooldowns[symbol])
            && symbol in view.symbolStates && view.symbolStates[symbol] != state)
      && (r.0.Switched? ==>
            && r.1 == RouterView(view.symbolStates[symbol := state], view.cooldowns[symbol := i + cooldownBars])
            && (r.0.closing, r.3) == ForcedClose(b, symbol, bars[i], rate)
            && r.2 == ResetView(views, symbol, view.symbolStates[symbol]))
      && (r.0 != InCooldown && !r.0.Switched? ==>
            && r.1 == RouterView(view.symbolStates[symbol := state], view.cooldowns - {symbol}) && r.3 == b
            && (r.0, r.2) == DispatchOn(strategies, symbol, i, bars, state, gate, currentPrices, views, b))
  {
    if !(symbol in view.cooldowns && i <= view.cooldowns[symbol]) {
      RouteOpenBranches(strategies, cooldownBars, rate, symbol, i, bars, state, gate, currentPrices,
                        RouterView(view.symbolStates, view.cooldowns - {symbol}), views, b);
    }
  }

  /** The part after the cooldown gate takes the switch branch exactly on a changed state. */
  lemma RouteOpenBranches(strategies: map<string, Strategy>, cooldownBars: int, rate: real, symbol: string, i: nat,
                          bars: seq<Bar>, state: MarketState, gate: RiskGate, currentPrices: map<string, real>,
                          view: RouterView, views: map<string, StrategyView>, b: Book)
    requires i < |bars| && BookValid(b) && StrategiesValid(strategies) && strategies.Keys <= views.Keys
    ensures var r := RouteOpenOn(strategies, cooldownBars, rate, symbol, i, bars, state, gate, currentPrices,
                                 view, views, b);
      && (r.0.Switched? <==> symbol in view.symbolStates && view.symbolStates[symbol] != state)
      && r.0 != InCooldown
      && (r.0.Switched? ==>
            r == SwitchOn(cooldownBars, rate, symbol, i, bars, state, view.symbolStates[symbol], view, views, b))
      && (!r.0.Switched? ==> r == RecordOn(strategies, symbol, i, bars, state, gate, currentPrices, view, views, b))
  {
  }

  /** route never opens a position and trades no symbol but the one routed. */
  lemma RouteTouchesOnlySymbol(strategies: map<string, Strategy>, cooldownBars: int, rate: real, symbol: string,
                               i: nat, bars: seq<Bar>, state: MarketState, gate: RiskGate,
                               currentPrices: map<string, real>, view: RouterView, views: map<string, StrategyView>,
                               b: Book)
    requires i < |bars| && BookValid(b) && StrategiesValid(strategies) && strategies.Keys <= views.Keys
    ensures var r := RouteOn(strategies, cooldownBars, rate, symbol, i, bars, state, gate, currentPrices, view, views, b);
      && r.3.positions - {symbol} == b.positions - {symbol}
      && r.3.positions.Keys <= b.positions.Keys
      && (r.0.Switched? ==> PositionIn(r.3, symbol) == Flat)
      && (!r.0.Switched? ==> r.3 == b)
      && (PositionIn(b, symbol).qty == 0.0 ==> r.3 == b && ClosingTrades(r.0) == [])
  {
    RouteCases(strategies, cooldownBars, rate, symbol, i, bars, state, gate, currentPrices, view, views, b);
    ForcedCloseFlattens(b, symbol, bars[i], rate);
  }

  /** A dispatched route outcome comes from the strategy the state maps to, in a state it
      allows, and its order is that strategy's on_bar order on its own view and the ledger
      route was handed. */
  lemma RouteDispatchesMapped(strategies: map<string, Strategy>, cooldownBars: int, rate: real, symbol: string,
                              i: nat, bars: seq<Bar>, state: MarketState, gate: RiskGate,
                              currentPrices: map<string, real>, view: RouterView, views: map<string, StrategyView>,
                              b: Book)
    requires i < |bars| && BookValid(b) && StrategiesValid(strategies) && strategies.Keys <= views.Keys
    ensures var r := RouteOn(strategies, cooldownBars, rate, symbol, i, bars, state, gate, currentPrices, view, views, b);
      r.0.Dispatched? ==>
        && MapStateToStrategy(state) == Some(r.0.strategyName) && r.0.strategyName in strategies
        && state in strategies[r.0.strategyName].allowedStates
        && OnBarOrder(r.0.order, strategies[r.0.strategyName].kind, symbol, bars, i, state, PositionIn(b, symbol).qty,
                      ContextOf(views[r.0.strategyName].context, symbol),
                      TradeStateOf(views[r.0.strategyName].tradeState, symbol), gate, b.cash, b.positions, b.order,
                      currentPrices)
  {
    RouteCases(strategies, cooldownBars, rate, symbol, i, bars, state, gate, currentPrices, view, views, b);
    DispatchPicksMapped(strategies, symbol, i, bars, state, gate, currentPrices, views, b);
  }

  class Router {
    const strategies: map<string, Strategy>
    const cooldownBars: int
    /** symbol -> last state seen */
    var symbolStates: map<string, MarketState>
    /** symbol -> last bar of the cooldown */
    var cooldowns: map<string, int>

    /** Every strategy is well formed and no two names share one instance. */
    predicate Valid() {
      && StrategiesValid(strategies)
      && (forall n, m :: n in strategies && m in strategies && n != m ==> strategies[n] != strategies[m])
    }

    constructor (strategies: map<string, Strategy>, cooldownBars: int)
      requires StrategiesValid(strategies)
      requires forall n, m :: n in strategies && m in strategies && n != m ==> strategies[n] != strategies[m]
      ensures Valid() && this.strategies == strategies && this.cooldownBars == cooldownBars
      ensures symbolStates == map[] && cooldowns == map[]
    {
      this.strategies := strategies;
      this.cooldownBars := cooldownBars;
      symbolStates := map[];
      cooldowns := map[];
    }

    /** The router's own state as a value. */
    function View(): (v: RouterView)
      reads this
      ensures v.symbolStates == symbolStates && v.cooldowns == cooldowns
    {
      RouterView(symbolStates, cooldowns)
    }

    /** Every strategy's per-symbol state as a value, by name. */
    function Views(): (v: map<string, StrategyView>)
      reads strategies.Values
      ensures v.Keys == strategies.Keys
      ensures forall n :: n in strategies ==>
        v[n] == StrategyView(strategies[n].context, strategies[n].tradeState, strategies[n].health)
    {
      map n | n in strategies :: StrategyView(strategies[n].context, strategies[n].tradeState, strategies[n].health)
    }

    /** No strategy's per-symbol state has changed. */
    twostate predicate StrategiesKept()
      reads strategies.Values
    {
      forall n :: n in strategies ==>
        && strategies[n].context == old(strategies[n].context)
        && strategies[n].tradeState == old(strategies[n].tradeState) && strategies[n].health == old(strategies[n].health)
    }

    /** The views are the expected map when every strategy's fields are its entry. */
    lemma ViewsAre(expected: map<string, StrategyView>)
      requires expected.Keys == strategies.Keys
      requires forall n :: n in strategies ==>
        StrategyView(strategies[n].context, strategies[n].tradeState, strategies[n].health) == expected[n]
      ensures Views() == expected
    {
    }

    /** _handle_switch: reset the outgoing strategy's context for the symbol if it has one,
        then close any position in full at the bar's close. */
    method HandleSwitch(symbol: string, bar: Bar, oldState: MarketState, broker: Broker)
      returns (closing: Option<ExecResult>)
      requires Valid() && broker.Valid()
      modifies broker, broker.portfolio, strategies.Values
      ensures broker.Valid()
      ensures (closing, broker.portfolio.Snapshot()) ==
        ForcedClose(old(broker.portfolio.Snapshot()), symbol, bar, broker.commissionRate)
      ensures Views() == ResetView(old(Views()), symbol, oldState)
      ensures closing.None? ==> broker.trades == old(broker.trades)
      ensures closing.Some? ==> closing.value.Filled? && broker.trades == old(broker.trades) + [closing.value.record]
    {
      ResetOutgoing(symbol, oldState);
      ghost var views := Views();
      assert broker.portfolio.Snapshot() == old(broker.portfolio.Snapshot());
      ForcedCloseMeetsSpec(old(broker.portfolio.Snapshot()), symbol, bar, broker.commissionRate);
      closing := ForceClose(symbol, bar, broker);
      assert Views() == views;
    }

    /** The context half of _handle_switch. */
    method ResetOutgoing(symbol: string, oldState: MarketState)
      requires Valid()
      modifies strategies.Values
      ensures Views() == ResetView(old(Views()), symbol, oldState)
    {
      ghost var before := Views();
      var outgoing := MapStateToStrategy(oldState);
      if outgoing.Some? && outgoing.value in strategies {
        strategies[outgoing.value].ResetContext(symbol);
      }
      ViewsAre(ResetView(before, symbol, oldState));
    }

    /** The dispatch half of route: the mapped strategy runs its on_bar when the state is one
        it allows, on the ledger as it stands. */
    method Dispatch(symbol: string, i: nat, bars: seq<Bar>, state: MarketState, portfolio: Portfolio,
                    gate: RiskGate, currentPrices: map<string, real>) returns (outcome: RouteOutcome)
      requires Valid() && portfolio.Valid() && i < |bars|
      modifies strategies.Values
      ensures (outcome, Views()) ==
        DispatchOn(strategies, symbol, i, bars, state, gate, currentPrices, old(Views()), portfolio.Snapshot())
    {
      var strategyName := MapStateToStrategy(state);
      if strategyName.None? {
        return NoStrategy;
      }
      if strategyName.value !in strategies {
        return NoStrategy;
      }
      if state in strategies[strategyName.value].allowedStates {
        outcome := RunMapped(strategyName.value, symbol, i, bars, state, portfolio, gate, currentPrices);
        return;
      }
      return NotAllowed;
    }

    /** The mapped strategy's on_bar, seen on the views of all strategies. */
    method RunMapped(name: string, symbol: string, i: nat, bars: seq<Bar>, state: MarketState, portfolio: Portfolio,
                     gate: RiskGate, currentPrices: map<string, real>) returns (outcome: RouteOutcome)
      requires Valid() && portfolio.Valid() && i < |bars| && name in strategies
      modifies strategies.Values
      ensures (outcome, Views()) ==
        RunOnBar(name, strategies[name].kind, symbol, i, bars, state, gate, currentPrices, old(Views()),
                 portfolio.Snapshot())
    {
      ghost var before := Views();
      var strategy := strategies[name];
      var order := strategy.OnBar(symbol, i, bars, state, portfolio, gate, currentPrices);
      outcome := Dispatched(name, order);
      ghost var expected := RunOnBar(name, strategy.kind, symbol, i, bars, state, gate, currentPrices, before,
                                     portfolio.Snapshot());
      assert expected.1 == before[name := StrategyView(strategy.context, strategy.tradeState, strategy.health)];
      forall n | n in strategies
        ensures StrategyView(strategies[n].context, strategies[n].tradeState, strategies[n].health) == expected.1[n]
      {
        if n != name {
          assert strategies[n] != strategy;
        }
      }
      ViewsAre(expected.1);
    }

    /** route: the cooldown gate, switch detection, then dispatch to the mapped strategy. The
        outcome and every state it touches are those of RouteOn. */
    method Route(symbol: string, i: nat, bars: seq<Bar>, state: MarketState, portfolio: Portfolio,
                 broker: Broker, gate: RiskGate, currentPrices: map<string, real>) returns (outcome: RouteOutcome)
      requires Valid() && broker.Valid() && broker.portfolio == portfolio && i < |bars|
      modifies this, broker, portfolio, strategies.Values
      ensures broker.Valid()
      ensures (outcome, View(), Views(), portfolio.Snapshot()) ==
        RouteOn(strategies, cooldownBars, broker.commissionRate, symbol, i, bars, state, gate, currentPrices,
                old(View()), old(Views()), old(portfolio.Snapshot()))
      ensures broker.trades == old(broker.trades) + ClosingTrades(outcome)
    {
      if symbol in cooldowns {
        if i <= cooldowns[symbol] {
          return InCooldown;
        } else {
          cooldowns := cooldowns - {symbol};
        }
      } else {
        assert cooldowns == cooldowns - {symbol};
      }
      assert Views() == old(Views());
      assert portfolio.Snapshot() == old(portfolio.Snapshot());

      outcome := RouteOpen(symbol, i, bars, state, portfolio, broker, gate, currentPrices);
    }

    /** The part of route after the cooldown gate: a switch, or recording and dispatch. */
    method RouteOpen(symbol: string, i: nat, bars: seq<Bar>, state: MarketState, portfolio: Portfolio,
                     broker: Broker, gate: RiskGate, currentPrices: map<string, real>) returns (outcome: RouteOutcome)
      requires Valid() && broker.Valid() && broker.portfolio == portfolio && i < |bars|
      modifies this, broker, portfolio, strategies.Values
      ensures broker.Valid()
      ensures (outcome, View(), Views(), portfolio.Snapshot()) ==
        RouteOpenOn(strategies, cooldownBars, broker.commissionRate, symbol, i, bars, state, gate, currentPrices,
                    old(View()), old(Views()), old(portfolio.Snapshot()))
      ensures broker.trades == old(broker.trades) + ClosingTrades(outcome)
    {
      RouteOpenBranches(strategies, cooldownBars, broker.commissionRate, symbol, i, bars, state, gate, currentPrices,
                        View(), Views(), portfolio.Snapshot());
      var lastState := if symbol in symbolStates then Some(symbolStates[symbol]) else None;

      if lastState.Some? && state != lastState.value {
        var closing := SwitchTo(symbol, i, bars, state, lastState.value, broker);
        return Switched(closing);
      }

      outcome := RecordAndDispatch(symbol, i, bars, state, portfolio, gate, currentPrices);
      assert portfolio.Snapshot() == old(portfolio.Snapshot());
      assert broker.trades == old(broker.trades);
    }

    /** The switch branch of route: handle the switch, start the cooldown, record the state. */
    method SwitchTo(symbol: string, i: nat, bars: seq<Bar>, state: MarketState, oldState: MarketState, broker: Broker)
      returns (closing: Option<ExecResult>)
      requires Valid() && broker.Valid() && i < |bars|
      modifies this, broker, broker.portfolio, strategies.Values
      ensures broker.Valid()
      ensures (Switched(closing), View(), Views(), broker.portfolio.Snapshot()) ==
        SwitchOn(cooldownBars, broker.commissionRate, symbol, i, bars, state, oldState, old(View()), old(Views()),
                 old(broker.portfolio.Snapshot()))
      ensures broker.trades == old(broker.trades) + ClosingTrades(Switched(closing))
    {
      closing := HandleSwitch(symbol, bars[i], oldState, broker);
      ghost var views := Views();
      cooldowns := cooldowns[symbol := i + cooldownBars];
      symbolStates := symbolStates[symbol := state];
      assert Views() == views;
    }

    /** The last branch of route: record the state, then dispatch. */
    method RecordAndDispatch(symbol: string, i: nat, bars: seq<Bar>, state: MarketState, portfolio: Portfolio,
                             gate: RiskGate, currentPrices: map<string, real>) returns (outcome: RouteOutcome)
      requires Valid() && portfolio.Valid() && i < |bars|
      modifies this, strategies.Values
      ensures (outcome, View(), Views(), portfolio.Snapshot()) ==
        RecordOn(strategies, symbol, i, bars, state, gate, currentPrices, old(View()), old(Views()),
                 portfolio.Snapshot())
    {
      symbolStates := symbolStates[symbol := state];
      assert Views() == old(Views());
      outcome := Dispatch(symbol, i, bars, state, portfolio, gate, currentPrices);
    }
  }
}
