/** The strategy template of strategies/base.py, with the four policies of the repository
    as one class tagged by its policy: the per-symbol context, the just-entered guard,
    exit-before-entry, sizing, and the order a bar produces. */
module Strategies {
  import opened Wrappers
  import opened Bars
  import opened Ledger
  import opened Execution
  import opened Risk
  import opened Regime
  import opened Signals
  import opened TrendFollowing
  import opened MeanReversion
  import opened TrendBreakout

  /** Which subclass a strategy is, with its constructor parameters. */
  datatype PolicyKind =
    | TrendUpPolicy(atrMultiplier: real)
    | TrendDownPolicy(atrMultiplier: real)
    | RangePolicy(atrThresholdPct: real)
    | BreakoutPolicy(entryWindow: nat, exitWindow: nat)

  /** The name each subclass passes to the base constructor. */
  function NameOf(kind: PolicyKind): string {
    match kind
    case TrendUpPolicy(_) => "TrendUp"
    case TrendDownPolicy(_) => "TrendDown"
    case RangePolicy(_) => "RangeMeanReversion"
    case BreakoutPolicy(_, _) => "TrendBreakout"
  }

  /** The allowed states each subclass passes to the base constructor. */
  function AllowedStatesOf(kind: PolicyKind): set<MarketState> {
    match kind
    case TrendUpPolicy(_) => {TrendUp}
    case TrendDownPolicy(_) => {TrendDown}
    case RangePolicy(_) => {Sideways}
    case BreakoutPolicy(_, _) => BreakoutStates
  }

  predicate WellFormed(kind: PolicyKind) {
    kind.BreakoutPolicy? ==> kind.entryWindow >= 1 && kind.exitWindow >= 1
  }

  /** A dict lookup with the default that get_context / get_trade_state insert. */
  function ContextOf(m: map<string, Context>, symbol: string): Context {
    if symbol in m then m[symbol] else EmptyContext
  }

  function TradeStateOf(m: map<string, TradeState>, symbol: string): TradeState {
    if symbol in m then m[symbol] else DefaultTradeState
  }

  /** should_enter of each policy. */
  function EntryFor(kind: PolicyKind, bars: seq<Bar>, i: nat, ts: TradeState): (r: Option<EntrySignal>)
    requires i < |bars| && WellFormed(kind)
    ensures r.Some? ==> r.value.action == Buy || r.value.action == Short
  {
    match kind
    case TrendUpPolicy(m) => TrendUpEntry(bars, i, m)
    case TrendDownPolicy(m) => TrendDownEntry(bars, i, m)
    case RangePolicy(t) => RangeEntry(bars, i, ts, t)
    case BreakoutPolicy(e, x) => BreakoutEntry(bars, i, e, x)
  }

  /** should_exit of each policy, with the context it leaves; only the trend policies move it. */
  function ExitFor(kind: PolicyKind, bars: seq<Bar>, i: nat, state: MarketState, qty: real, ctx: Context): (d: ExitDecision)
    requires i < |bars| && WellFormed(kind)
    ensures !(kind.TrendUpPolicy? || kind.TrendDownPolicy?) ==> d.context == ctx
  {
    match kind
    case TrendUpPolicy(m) => TrendUpExit(bars[i], state, ctx, m)
    case TrendDownPolicy(m) => TrendDownExit(bars[i], state, ctx, m)
    case RangePolicy(_) => ExitDecision(RangeExit(bars[i], qty, ctx), ctx)
    case BreakoutPolicy(_, x) => ExitDecision(TrendBreakout.BreakoutExit(bars, i, state, x), ctx)
  }

  /** just_entered: i <= entry_bar + 1, with entry_bar defaulting to -2. */
  predicate JustEntered(ctx: Context, i: int) {
    i <= ctx.entryBar.GetOr(-2) + 1
  }

  /** An exit action closes the position it is asked about: sell a long, cover a short. */
  predicate Matches(qty: real, action: Side) {
    (qty > 0.0 && action == Sell) || (qty < 0.0 && action == Cover)
  }

  /** The context an entry writes. */
  function EntryContext(action: Side, stopLoss: real, close: real, i: int): Context {
    Context(Some(stopLoss), Some(close), Some(if action == Buy then NegInf else PosInf), Some(i))
  }

  /** The prices used for sizing: the bar's prices when given and non-empty, else this close alone. */
  function PriceMap(currentPrices: map<string, real>, symbol: string, close: real): map<string, real> {
    if |currentPrices| > 0 then currentPrices else map[symbol := close]
  }

  /** What check_entry_risk is given: the portfolio's state and the proposed entry. */
  datatype EntryCheck = EntryCheck(
    cash: real, positions: map<string, Position>, symbol: string,
    size: real, price: real, volume: real, prices: map<string, real>)

  /** The risk manager as on_bar uses it. Stop-based sizing is modelled; the fixed-fraction
      fallback and the pre-trade check are not defined in this repository's risk manager,
      so they are parameters. */
  datatype RiskGate = RiskGate(
    manager: RiskManager,
    fixedFraction: (real, real, real) -> real,
    approveEntry: EntryCheck -> bool)

  /** The entry size: stop-based when the stop is positive, else 10% of equity. */
  function EntrySize(gate: RiskGate, equity: real, close: real, stopLoss: real): real {
    if stopLoss > 0.0 then gate.manager.PositionSize(equity, close, stopLoss)
    else gate.fixedFraction(equity, close, 0.10)
  }

  /** The order the exit half of on_bar submits: the full size, at market, at the close, and
      only when the exit action closes the held position. */
  function ExitOrder(kind: PolicyKind, symbol: string, bars: seq<Bar>, i: nat, state: MarketState,
                     qty: real, ctx: Context): (r: Option<OrderRequest>)
    requires i < |bars| && WellFormed(kind)
    ensures r.Some? ==> r.value.side == Sell || r.value.side == Cover
    ensures r.Some? <==> qty != 0.0 && !JustEntered(ctx, i) && ExitFor(kind, bars, i, state, qty, ctx).signal.Some?
                         && Matches(qty, ExitFor(kind, bars, i, state, qty, ctx).signal.value.action)
    ensures r.Some? ==> r.value.qty == Abs(qty) && r.value.qty > 0.0 && r.value.strategyId == NameOf(kind)
                        && r.value.price == bars[i].close && r.value.kind == Market
  {
    var d := ExitFor(kind, bars, i, state, qty, ctx);
    if qty != 0.0 && !JustEntered(ctx, i) && d.signal.Some? && Matches(qty, d.signal.value.action) then
      Some(OrderRequest(symbol, d.signal.value.action, Abs(qty), Market, bars[i].close, bars[i].time,
                        NameOf(kind), d.signal.value.reason))
    else None
  }

  /** The order the entry half of on_bar submits for an allowed state: the policy's signal,
      sized on the equity at the sizing prices, when the size is positive and approved. */
  function EntryOrder(kind: PolicyKind, symbol: string, bars: seq<Bar>, i: nat, state: MarketState,
                      ts: TradeState, gate: RiskGate, cash: real, positions: map<string, Position>,
                      keys: seq<string>, currentPrices: map<string, real>): (r: Option<OrderRequest>)
    requires i < |bars| && WellFormed(kind)
    requires forall k :: k in keys ==> k in positions
    ensures r.Some? ==> r.value.side == Buy || r.value.side == Short
    ensures r.Some? ==> state in AllowedStatesOf(kind) && EntryFor(kind, bars, i, ts).Some? && r.value.qty > 0.0
    ensures state in AllowedStatesOf(kind) && EntryFor(kind, bars, i, ts).Some? ==>
      r == SizedEntry(EntryFor(kind, bars, i, ts).value, symbol, bars[i], NameOf(kind), gate, cash, positions, keys, currentPrices)
  {
    var e := EntryFor(kind, bars, i, ts);
    if state !in AllowedStatesOf(kind) || e.None? then None
    else SizedEntry(e.value, symbol, bars[i], NameOf(kind), gate, cash, positions, keys, currentPrices)
  }

  /** The entry order for a signal: sized on the equity at the sizing prices, and placed when
      the size is positive and the gate approves it. */
  function SizedEntry(e: EntrySignal, symbol: string, bar: Bar, name: string, gate: RiskGate, cash: real,
                      positions: map<string, Position>, keys: seq<string>, currentPrices: map<string, real>)
    : (r: Option<OrderRequest>)
    requires forall k :: k in keys ==> k in positions
    ensures var prices := PriceMap(currentPrices, symbol, bar.close);
            var size := EntrySize(gate, cash + MarkedValue(keys, positions, prices), bar.close, e.stopLoss);
            && (r.Some? <==> size > 0.0 && gate.approveEntry(EntryCheck(cash, positions, symbol, size, bar.close, 0.0, prices)))
            && (r.Some? ==> r.value == OrderRequest(symbol, e.action, size, e.kind.GetOr(Market), e.price.GetOr(bar.close),
                                                    bar.time, name, Signal))
  {
    var prices := PriceMap(currentPrices, symbol, bar.close);
    var size := EntrySize(gate, cash + MarkedValue(keys, positions, prices), bar.close, e.stopLoss);
    if size > 0.0 && gate.approveEntry(EntryCheck(cash, positions, symbol, size, bar.close, 0.0, prices)) then
      Some(OrderRequest(symbol, e.action, size, e.kind.GetOr(Market), e.price.GetOr(bar.close), bar.time, name, Signal))
    else None
  }

  /** The context map once on_bar has read the context and, when it ran, should_exit. */
  function AfterExitCheck(kind: PolicyKind, m: map<string, Context>, symbol: string, bars: seq<Bar>, i: nat,
                          state: MarketState, qty: real): (r: map<string, Context>)
    requires i < |bars| && WellFormed(kind)
    ensures symbol in r && r == m[symbol := r[symbol]]
  {
    var ctx := ContextOf(m, symbol);
    var m1 := m[symbol := ctx];
    if qty != 0.0 && !JustEntered(ctx, i) && !kind.BreakoutPolicy? then
      m1[symbol := ExitFor(kind, bars, i, state, qty, ctx).context]
    else m1
  }

  /** The order on_bar returns for a position of signed size qty: the exit half's order when
      the symbol is held, else the entry half's. */
  function OnBarResult(kind: PolicyKind, symbol: string, bars: seq<Bar>, i: nat, state: MarketState, qty: real,
                       ctx: Context, ts: TradeState, gate: RiskGate, cash: real, positions: map<string, Position>,
                       keys: seq<string>, currentPrices: map<string, real>): (r: Option<OrderRequest>)
    requires i < |bars| && WellFormed(kind) && forall k :: k in keys ==> k in positions
    ensures r.Some? && qty != 0.0 ==> r.value.side == Sell || r.value.side == Cover
    ensures r.Some? && qty == 0.0 ==> r.value.side == Buy || r.value.side == Short
  {
    if qty != 0.0 then ExitOrder(kind, symbol, bars, i, state, qty, ctx)
    else EntryOrder(kind, symbol, bars, i, state, ts, gate, cash, positions, keys, currentPrices)
  }

  /** The context map on_bar leaves: the exit check's, then cleared by an exit order or set to
      the entry context by an entry order. Only the symbol's entry can change. */
  function OnBarContext(kind: PolicyKind, m: map<string, Context>, ts: map<string, TradeState>, symbol: string,
                        bars: seq<Bar>, i: nat, state: MarketState, qty: real, order: Option<OrderRequest>)
    : (r: map<string, Context>)
    requires i < |bars| && WellFormed(kind)
    ensures symbol in r && r == m[symbol := r[symbol]]
    ensures order.None? ==> r == AfterExitCheck(kind, m, symbol, bars, i, state, qty)
  {
    var m1 := AfterExitCheck(kind, m, symbol, bars, i, state, qty);
    if order.Some? && (order.value.side == Sell || order.value.side == Cover) then m1[symbol := EmptyContext]
    else if order.Some? then
      match EntryFor(kind, bars, i, TradeStateOf(ts, symbol))
      case Some(e) => m1[symbol := EntryContext(order.value.side, e.stopLoss, bars[i].close, i)]
      case None => m1
    else m1
  }

  /** The trade-state map on_bar leaves: the range policy's should_enter inserts the default
      for a flat symbol in an allowed state; nothing else changes it. */
  function OnBarTradeState(kind: PolicyKind, ts: map<string, TradeState>, symbol: string, state: MarketState, qty: real)
    : (r: map<string, TradeState>)
    ensures r == ts || r == ts[symbol := TradeStateOf(ts, symbol)]
    ensures TradeStateOf(r, symbol) == TradeStateOf(ts, symbol)
  {
    if qty == 0.0 && state in AllowedStatesOf(kind) && kind.RangePolicy? then ts[symbol := TradeStateOf(ts, symbol)] else ts
  }

  /** The sizing and gating tail of on_bar's entry half: equity at the sizing prices, the
      position size, then the gate. */
  method SizeEntry(e: EntrySignal, symbol: string, bar: Bar, name: string, portfolio: Portfolio, gate: RiskGate,
                   currentPrices: map<string, real>) returns (order: Option<OrderRequest>)
    requires portfolio.Valid()
    ensures order == SizedEntry(e, symbol, bar, name, gate, portfolio.cash, portfolio.positions, portfolio.order, currentPrices)
  {
    var currentPrice := bar.close;
    var priceMap := PriceMap(currentPrices, symbol, currentPrice);
    var equity := portfolio.GetEquity(priceMap);
    var size := EntrySize(gate, equity, currentPrice, e.stopLoss);
    order := None;
    if size > 0.0 {
      if gate.approveEntry(EntryCheck(portfolio.cash, portfolio.positions, symbol, size, currentPrice, 0.0, priceMap)) {
        order := Some(OrderRequest(symbol, e.action, size, e.kind.GetOr(Market), e.price.GetOr(currentPrice), bar.time, name, Signal));
      }
    }
  }

  class Strategy {
    const kind: PolicyKind
    const name: string
    const allowedStates: set<MarketState>
    /** symbol -> context dict */
    var context: map<string, Context>
    /** symbol -> trade_state dict (range policy) */
    var tradeState: map<string, TradeState>
    /** health_stats (breakout policy) */
    var health: HealthStats

    predicate Valid() {
      name == NameOf(kind) && allowedStates == AllowedStatesOf(kind) && WellFormed(kind)
    }

    constructor (kind: PolicyKind)
      requires WellFormed(kind)
      ensures Valid() && this.kind == kind
      ensures context == map[] && tradeState == map[] && health == InitialHealth
    {
      this.kind := kind;
      name := NameOf(kind);
      allowedStates := AllowedStatesOf(kind);
      context := map[];
      tradeState := map[];
      health := InitialHealth;
    }

    /** get_context: insert an empty context on a miss, then return the stored one. */
    method GetContext(symbol: string) returns (ctx: Context)
      modifies this
      ensures context == old(context)[symbol := ContextOf(old(context), symbol)]
      ensures symbol in old(context) ==> context == old(context)
      ensures ctx == context[symbol] == ContextOf(old(context), symbol)
      ensures tradeState == old(tradeState) && health == old(health)
    {
      if symbol !in context {
        context := context[symbol := EmptyContext];
      }
      ctx := context[symbol];
    }

    /** The router's reset on a regime switch: an existing context entry becomes empty. */
    method ResetContext(symbol: string)
      modifies this
      ensures context == if symbol in old(context) then old(context)[symbol := EmptyContext] else old(context)
      ensures tradeState == old(tradeState) && health == old(health)
    {
      if symbol in context {
        context := context[symbol := EmptyContext];
      }
    }

    /** get_trade_state: insert the default trade state on a miss, then return the stored one. */
    method GetTradeState(symbol: string) returns (ts: TradeState)
      modifies this
      ensures tradeState == old(tradeState)[symbol := TradeStateOf(old(tradeState), symbol)]
      ensures ts == tradeState[symbol] == TradeStateOf(old(tradeState), symbol)
      ensures context == old(context) && health == old(health)
    {
      if symbol !in tradeState {
        tradeState := tradeState[symbol := DefaultTradeState];
      }
      ts := tradeState[symbol];
    }

    /** check_health: the latch of the breakout policy. */
    method CheckHealth() returns (alive: bool)
      modifies this
      ensures HealthCheck(alive, health) == TrendBreakout.CheckHealth(old(health))
      ensures !old(health).isAlive ==> !alive && health == old(health)
      ensures context == old(context) && tradeState == old(tradeState)
    {
      if !health.isAlive {
        return false;
      }
      if health.consecutiveLosses > 5 {
        health := health.(isAlive := false, deathReason := Some(TooManyLosses));
        return false;
      }
      if RecentMeanNegative(health.rollingPnl) {
        health := health.(isAlive := false, deathReason := Some(NegativeRollingMean));
        return false;
      }
      return true;
    }

    /** should_enter; the range policy reads (and so inserts) the symbol's trade state. */
    method ShouldEnter(symbol: string, i: nat, bars: seq<Bar>) returns (signal: Option<EntrySignal>)
      requires Valid() && i < |bars|
      modifies this
      ensures signal == EntryFor(kind, bars, i, TradeStateOf(old(tradeState), symbol))
      ensures tradeState == if kind.RangePolicy? then old(tradeState)[symbol := TradeStateOf(old(tradeState), symbol)]
                            else old(tradeState)
      ensures context == old(context) && health == old(health)
    {
      match kind
      case TrendUpPolicy(m) => signal := TrendUpEntry(bars, i, m);
      case TrendDownPolicy(m) => signal := TrendDownEntry(bars, i, m);
      case RangePolicy(t) =>
        var ts := GetTradeState(symbol);
        signal := RangeEntry(bars, i, ts, t);
      case BreakoutPolicy(e, x) => signal := BreakoutEntry(bars, i, e, x);
    }

    /** should_exit for a position of signed size qty. The trend and range policies read the
        context through get_context; the trend policies store the moved trail back. */
    method ShouldExit(symbol: string, i: nat, bars: seq<Bar>, state: MarketState, qty: real)
      returns (signal: Option<ExitSignal>)
      requires Valid() && i < |bars|
      modifies this
      ensures var d := ExitFor(kind, bars, i, state, qty, ContextOf(old(context), symbol));
              && signal == d.signal
              && context == if kind.BreakoutPolicy? then old(context) else old(context)[symbol := d.context]
      ensures tradeState == old(tradeState) && health == old(health)
    {
      if kind.BreakoutPolicy? {
        signal := TrendBreakout.BreakoutExit(bars, i, state, kind.exitWindow);
        return;
      }
      var ctx := GetContext(symbol);
      var d := ExitFor(kind, bars, i, state, qty, ctx);
      context := context[symbol := d.context];
      signal := d.signal;
    }

    /** The exit half of on_bar for a position of signed size qty. */
    method ExitStep(symbol: string, i: nat, bars: seq<Bar>, state: MarketState, qty: real)
      returns (order: Option<OrderRequest>)
      requires Valid() && i < |bars|
      modifies this
      ensures order == ExitOrder(kind, symbol, bars, i, state, qty, ContextOf(old(context), symbol))
      ensures context == if order.Some? then AfterExitCheck(kind, old(context), symbol, bars, i, state, qty)[symbol := EmptyContext]
                         else AfterExitCheck(kind, old(context), symbol, bars, i, state, qty)
      ensures tradeState == old(tradeState) && health == old(health)
    {
      order := None;
      var ctxPre := GetContext(symbol);
      var justEntered := JustEntered(ctxPre, i);
      if qty != 0.0 && !justEntered {
        var exitSignal := ShouldExit(symbol, i, bars, state, qty);
        if exitSignal.Some? {
          var action := exitSignal.value.action;
          var reason := exitSignal.value.reason;
          var closeQty := Abs(qty);
          var currentPrice := bars[i].close;
          if Matches(qty, action) {
            order := Some(OrderRequest(symbol, action, closeQty, Market, currentPrice, bars[i].time, name, reason));
            context := context[symbol := EmptyContext];
          }
        }
      }
    }

    /** The entry half of on_bar, run only when the position read at the start was flat. */
    method EntryStep(symbol: string, i: nat, bars: seq<Bar>, state: MarketState, portfolio: Portfolio,
                     gate: RiskGate, currentPrices: map<string, real>) returns (order: Option<OrderRequest>)
      requires Valid() && portfolio.Valid() && i < |bars|
      modifies this
      ensures order == EntryOrder(kind, symbol, bars, i, state, TradeStateOf(old(tradeState), symbol), gate,
                                  portfolio.cash, portfolio.positions, portfolio.order, currentPrices)
      ensures order.Some? ==> context == old(context)[symbol := EntryContext(order.value.side, EntryFor(kind, bars, i,
                                TradeStateOf(old(tradeState), symbol)).value.stopLoss, bars[i].close, i)]
      ensures order.None? ==> context == old(context)
      ensures tradeState == if state in allowedStates && kind.RangePolicy?
                            then old(tradeState)[symbol := TradeStateOf(old(tradeState), symbol)]
                            else old(tradeState)
      ensures health == old(health)
    {
      order := None;
      if state in allowedStates {
        var entrySignal := ShouldEnter(symbol, i, bars);
        if entrySignal.Some? {
          order := SizeEntry(entrySignal.value, symbol, bars[i], name, portfolio, gate, currentPrices);
          if order.Some? {
            context := context[symbol := EntryContext(order.value.side, entrySignal.value.stopLoss, bars[i].close, i)];
          }
        }
      }
    }

    /** The base on_bar: the exit half for a held position, the entry half for a flat one, so
        a call never both exits and enters. */
    method BaseOnBar(symbol: string, i: nat, bars: seq<Bar>, state: MarketState, portfolio: Portfolio,
                     gate: RiskGate, currentPrices: map<string, real>) returns (order: Option<OrderRequest>)
      requires Valid() && portfolio.Valid() && i < |bars|
      modifies this
      ensures var qty := portfolio.GetPosition(symbol).qty;
              order == if qty != 0.0 then ExitOrder(kind, symbol, bars, i, state, qty, ContextOf(old(context), symbol))
                       else EntryOrder(kind, symbol, bars, i, state, TradeStateOf(old(tradeState), symbol), gate,
                                       portfolio.cash, portfolio.positions, portfolio.order, currentPrices)
      ensures var qty := portfolio.GetPosition(symbol).qty;
              var m := AfterExitCheck(kind, old(context), symbol, bars, i, state, qty);
              context == if order.Some? && (order.value.side == Sell || order.value.side == Cover) then m[symbol := EmptyContext]
                         else if order.Some? then m[symbol := EntryContext(order.value.side, EntryFor(kind, bars, i,
                                TradeStateOf(old(tradeState), symbol)).value.stopLoss, bars[i].close, i)]
                         else m
      ensures tradeState == if portfolio.GetPosition(symbol).qty == 0.0 && state in allowedStates && kind.RangePolicy?
                            then old(tradeState)[symbol := TradeStateOf(old(tradeState), symbol)]
                            else old(tradeState)
      ensures health == old(health)
    {
      var currentPos := portfolio.GetPosition(symbol);
      var qty := currentPos.qty;
      order := ExitStep(symbol, i, bars, state, qty);
      if qty == 0.0 {
        order := EntryStep(symbol, i, bars, state, portfolio, gate, currentPrices);
      }
    }

    /** The range policy's bookkeeping after the base flow: a call that took the position from
        held to flat books its PnL into the loss streak. */
    method SettleRangeTrade(symbol: string, i: int, qtyBefore: real, avgPrice: real, qtyAfter: real, exitPrice: real)
      modifies this
      ensures qtyBefore != 0.0 && qtyAfter == 0.0 ==>
        tradeState == old(tradeState)[symbol := SettleClose(TradeStateOf(old(tradeState), symbol),
                                                            ClosedPnl(qtyBefore, avgPrice, exitPrice), i)]
      ensures !(qtyBefore != 0.0 && qtyAfter == 0.0) ==> tradeState == old(tradeState)
      ensures context == old(context) && health == old(health)
    {
      if qtyBefore != 0.0 && qtyAfter == 0.0 {
        var pnl := ClosedPnl(qtyBefore, avgPrice, exitPrice);
        var ts := GetTradeState(symbol);
        tradeState := tradeState[symbol := SettleClose(ts, pnl, i)];
      }
    }

    /** on_bar: the base flow, followed for the range policy by its loss bookkeeping on the
        position read again afterwards. Orders are only submitted, never filled, inside the
        call, so that second read sees the same position and the bookkeeping books nothing. */
    method OnBar(symbol: string, i: nat, bars: seq<Bar>, state: MarketState, portfolio: Portfolio,
                 gate: RiskGate, currentPrices: map<string, real>) returns (order: Option<OrderRequest>)
      requires Valid() && portfolio.Valid() && i < |bars|
      modifies this
      ensures var qty := portfolio.GetPosition(symbol).qty;
              order == if qty != 0.0 then ExitOrder(kind, symbol, bars, i, state, qty, ContextOf(old(context), symbol))
                       else EntryOrder(kind, symbol, bars, i, state, TradeStateOf(old(tradeState), symbol), gate,
                                       portfolio.cash, portfolio.positions, portfolio.order, currentPrices)
      ensures order.Some? && (order.value.side == Sell || order.value.side == Cover) ==>
                symbol in context && context[symbol] == EmptyContext
      ensures order.Some? && (order.value.side == Buy || order.value.side == Short) ==>
                symbol in context && context[symbol].entryBar == Some(i) && context[symbol].entryPrice == Some(bars[i].close)
      ensures order.None? ==> context == AfterExitCheck(kind, old(context), symbol, bars, i, state, portfolio.GetPosition(symbol).qty)
      ensures tradeState == if portfolio.GetPosition(symbol).qty == 0.0 && state in allowedStates && kind.RangePolicy?
                            then old(tradeState)[symbol := TradeStateOf(old(tradeState), symbol)]
                            else old(tradeState)
      ensures health == old(health)
      ensures var qty := portfolio.GetPosition(symbol).qty;
              && order == OnBarResult(kind, symbol, bars, i, state, qty, ContextOf(old(context), symbol),
                                      TradeStateOf(old(tradeState), symbol), gate, portfolio.cash, portfolio.positions,
                                      portfolio.order, currentPrices)
              && context == OnBarContext(kind, old(context), old(tradeState), symbol, bars, i, state, qty, order)
              && tradeState == OnBarTradeState(kind, old(tradeState), symbol, state, qty)
    {
      var qtyBefore := portfolio.GetPosition(symbol).qty;
      var avgBefore := portfolio.GetPosition(symbol).avgPrice;
      order := BaseOnBar(symbol, i, bars, state, portfolio, gate, currentPrices);
      if kind.RangePolicy? {
        var qtyAfter := portfolio.GetPosition(symbol).qty;
        SettleRangeTrade(symbol, i, qtyBefore, avgBefore, qtyAfter, bars[i].close);
      }
    }
  }
}
