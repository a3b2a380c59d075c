/** The main loop of backtest/engine.py (run_backtest after the data is aligned): the daily
    reference equity, the warm-up rows, the intraday circuit breaker with its flatten orders,
    per-symbol routing, and one equity row per stamp of the common axis. */
module Engine {
  import opened Wrappers
  import opened Bars
  import opened Ledger
  import opened Execution
  import opened Regime
  import opened Signals
  import opened Strategies
  import opened Routing
  import opened EngineData

  /** The calendar day of a UTC stamp (timestamp.date()). */
  function Day(t: int): int {
    t / DaySeconds
  }

  /** One entry of the equity curve. */
  datatype EquityRow = EquityRow(time: int, equity: real, cash: real)

  // ---------------------------------------------------------------------------
  // The daily reference equity
  // ---------------------------------------------------------------------------

  /** daily_start_equity as it stands while bar i is processed: the initial capital until the
      first change of day after bar 0, then the equity recorded on the bar before each change. */
  function DailyReference(axis: seq<int>, curve: seq<EquityRow>, initial: real, i: nat): real
    requires i < |axis| && i <= |curve|
  {
    if i == 0 then initial
    else if Day(axis[i]) != Day(axis[i - 1]) then curve[i - 1].equity
    else DailyReference(axis, curve, initial, i - 1)
  }

  /** The first bar of bar i's run of same-day bars. */
  function DayStart(axis: seq<int>, i: nat): (d: nat)
    requires i < |axis|
    ensures d <= i && Day(axis[d]) == Day(axis[i])
  {
    if i == 0 || Day(axis[i]) != Day(axis[i - 1]) then i else DayStart(axis, i - 1)
  }

  /** On a strictly increasing axis the reference is the equity recorded just before the first
      bar of the current calendar day, or the initial capital when that day is the first. */
  lemma {:induction false} DailyReferenceIsDayOpen(axis: seq<int>, curve: seq<EquityRow>, initial: real, i: nat)
    requires StrictlyIncreasing(axis) && i < |axis| && i <= |curve|
    ensures var d := DayStart(axis, i);
            && (forall k :: 0 <= k < d ==> Day(axis[k]) < Day(axis[i]))
            && DailyReference(axis, curve, initial, i) == if d == 0 then initial else curve[d - 1].equity
  {
    if i > 0 && Day(axis[i]) == Day(axis[i - 1]) {
      DailyReferenceIsDayOpen(axis, curve, initial, i - 1);
    } else if i > 0 {
      forall k | 0 <= k < i ensures Day(axis[k]) < Day(axis[i]) {
        assert axis[k] <= axis[i - 1] < axis[i];
        DayMonotone(axis[k], axis[i - 1]);
        DayMonotone(axis[i - 1], axis[i]);
      }
    }
  }

  lemma DayMonotone(s: int, t: int)
    requires s <= t
    ensures Day(s) <= Day(t)
  {
  }

  /** Rows appended later do not change a reference already taken. */
  lemma {:induction false} DailyReferenceStable(axis: seq<int>, curve: seq<EquityRow>, row: EquityRow, initial: real, i: nat)
    requires i < |axis| && i <= |curve|
    ensures DailyReference(axis, curve + [row], initial, i) == DailyReference(axis, curve, initial, i)
  {
    if i > 0 && Day(axis[i]) == Day(axis[i - 1]) {
      DailyReferenceStable(axis, curve, row, initial, i - 1);
    }
  }

  /** When every recorded equity is the initial capital, so is the reference. */
  lemma {:induction false} FlatCurveReference(axis: seq<int>, curve: seq<EquityRow>, initial: real, i: nat)
    requires i < |axis| && i <= |curve|
    requires forall k :: 0 <= k < |curve| ==> curve[k].equity == initial
    ensures DailyReference(axis, curve, initial, i) == initial
  {
    if i > 0 && Day(axis[i]) == Day(axis[i - 1]) {
      FlatCurveReference(axis, curve, initial, i - 1);
    }
  }

  // ---------------------------------------------------------------------------
  // Current prices
  // ---------------------------------------------------------------------------

  /** The current_prices dict: each symbol's close at bar i. */
  function PricesAt(symbols: seq<string>, frames: seq<seq<Bar>>, i: nat): (r: map<string, real>)
    requires |symbols| == |frames| && forall k :: 0 <= k < |frames| ==> i < |frames[k]|
    ensures forall s :: s in r <==> s in symbols
  {
    if symbols == [] then map[]
    else
      var n := |symbols| - 1;
      assert forall s :: s in symbols <==> s in symbols[..n] || s == symbols[n] by {
        assert symbols == symbols[..n] + [symbols[n]];
      }
      PricesAt(symbols[..n], frames[..n], i)[symbols[n] := frames[n][i].close]
  }

  /** A symbol is priced at the close of its bar i; when it is repeated, the last frame wins. */
  lemma {:induction false} PriceAtLastOccurrence(symbols: seq<string>, frames: seq<seq<Bar>>, i: nat, k: nat)
    requires |symbols| == |frames| && forall j :: 0 <= j < |frames| ==> i < |frames[j]|
    requires k < |symbols| && forall j :: k < j < |symbols| ==> symbols[j] != symbols[k]
    ensures PricesAt(symbols, frames, i)[symbols[k]] == frames[k][i].close
  {
    var n := |symbols| - 1;
    var prev := PricesAt(symbols[..n], frames[..n], i);
    assert PricesAt(symbols, frames, i) == prev[symbols[n] := frames[n][i].close];
    if k < n {
      assert symbols[..n][k] == symbols[k] && frames[..n][k] == frames[k];
      PriceAtLastOccurrence(symbols[..n], frames[..n], i, k);
      assert symbols[n] != symbols[k];
    }
  }

  /** The loop that builds current_prices. */
  method CurrentPrices(symbols: seq<string>, frames: seq<seq<Bar>>, i: nat) returns (prices: map<string, real>)
    requires |symbols| == |frames| && forall k :: 0 <= k < |frames| ==> i < |frames[k]|
    ensures prices == PricesAt(symbols, frames, i)
  {
    prices := map[];
    for k := 0 to |symbols|
      invariant prices == PricesAt(symbols[..k], frames[..k], i)
    {
      assert symbols[..k + 1][..k] == symbols[..k] && frames[..k + 1][..k] == frames[..k];
      prices := prices[symbols[k] := frames[k][i].close];
    }
    assert symbols[..|symbols|] == symbols && frames[..|frames|] == frames;
  }

  // ---------------------------------------------------------------------------
  // The circuit breaker's flatten orders
  // ---------------------------------------------------------------------------

  /** The order the breaker submits for a held quantity: sell a long, cover a short, in full,
      at the current price, tagged CircuitBreaker / MaxLoss. */
  function BreakerOrder(symbol: string, qty: real, price: real, t: int): OrderRequest {
    OrderRequest(symbol, if qty > 0.0 then Sell else Cover, Abs(qty), Market, price, t, "CircuitBreaker", MaxLoss)
  }

  /** The orders of the flatten loop over the positions in insertion order; a zero quantity submits nothing. */
  function FlattenIntents(keys: seq<string>, positions: map<string, Position>, prices: map<string, real>, t: int)
    : (r: seq<OrderRequest>)
    requires forall k :: k in keys ==> k in positions && k in prices
    ensures |r| <= |keys|
    ensures forall o :: o in r ==>
      o.symbol in keys && positions[o.symbol].qty != 0.0
      && o == BreakerOrder(o.symbol, positions[o.symbol].qty, prices[o.symbol], t)
    ensures forall s :: s in keys && positions[s].qty != 0.0 ==> BreakerOrder(s, positions[s].qty, prices[s], t) in r
  {
    if keys == [] then []
    else
      var n := |keys| - 1;
      var init := FlattenIntents(keys[..n], positions, prices, t);
      var s := keys[n];
      assert forall x :: x in keys ==> x in keys[..n] || x == s by {
        forall x | x in keys ensures x in keys[..n] || x == s {
          var j :| 0 <= j < |keys| && keys[j] == x;
          if j < n { assert keys[..n][j] == x; }
        }
      }
      if positions[s].qty != 0.0 then init + [BreakerOrder(s, positions[s].qty, prices[s], t)] else init
  }

  /** Filled, a breaker order for a held position is accepted and leaves the symbol flat. */
  lemma BreakerOrderFlattens(pos: Position, price: real, t: int, symbol: string)
    requires pos.qty != 0.0
    ensures var o := BreakerOrder(symbol, pos.qty, price, t);
            && RejectionFor(if o.side == Sell then "sell" else "cover", o.qty, pos.qty).None?
            && Fill(pos, Delta(o.side, o.qty), price) == Flat
  {
    FullCloseFlattens(pos, price);
  }

  /** The flatten loop of the breaker branch. */
  method FlattenAll(portfolio: Portfolio, prices: map<string, real>, t: int) returns (intents: seq<OrderRequest>)
    requires portfolio.Valid() && forall k :: k in portfolio.positions ==> k in prices
    ensures intents == FlattenIntents(portfolio.order, portfolio.positions, prices, t)
  {
    intents := [];
    for k := 0 to |portfolio.order|
      invariant intents == FlattenIntents(portfolio.order[..k], portfolio.positions, prices, t)
    {
      assert portfolio.order[..k + 1][..k] == portfolio.order[..k];
      var symbol := portfolio.order[k];
      var qty := portfolio.positions[symbol].qty;
      if qty != 0.0 {
        intents := intents + [BreakerOrder(symbol, qty, prices[symbol], t)];
      }
    }
    assert portfolio.order[..|portfolio.order|] == portfolio.order;
  }

  // ---------------------------------------------------------------------------
  // Routing every symbol
  // ---------------------------------------------------------------------------

  /** The state get_state reports for bar i of a frame, for a machine of the given stability period. */
  function StateAt(period: int, bars: seq<Bar>, i: nat): MarketState
    requires i < |bars|
  {
    Stable(RawLabels(bars), period)[i]
  }

  /** The orders the dispatched strategies returned, in routing order. */
  function OrdersOf(outcomes: seq<RouteOutcome>): (r: seq<OrderRequest>)
    ensures |r| <= |outcomes|
    ensures forall o :: o in r ==> exists k :: 0 <= k < |outcomes| && outcomes[k].Dispatched? && outcomes[k].order == Some(o)
  {
    if outcomes == [] then []
    else
      var n := |outcomes| - 1;
      var init := OrdersOf(outcomes[..n]);
      assert forall o :: o in init ==> exists k :: 0 <= k < n && outcomes[k].Dispatched? && outcomes[k].order == Some(o) by {
        forall o | o in init ensures exists k :: 0 <= k < n && outcomes[k].Dispatched? && outcomes[k].order == Some(o) {
          var k :| 0 <= k < n && outcomes[..n][k].Dispatched? && outcomes[..n][k].order == Some(o);
          assert outcomes[k] == outcomes[..n][k];
        }
      }
      var last := outcomes[n];
      if last.Dispatched? && last.order.Some? then init + [last.order.value] else init
  }

  /** The closing trades a sequence of route calls books, in routing order. */
  function ClosingTradesOf(outcomes: seq<RouteOutcome>): (t: seq<TradeRecord>)
    ensures |t| <= |outcomes|
  {
    if outcomes == [] then [] else ClosingTradesOf(outcomes[..|outcomes| - 1]) + ClosingTrades(outcomes[|outcomes| - 1])
  }

  /** A dispatched outcome went to the strategy its state maps to, and that strategy allows it. */
  ghost predicate RoutedTo(outcome: RouteOutcome, state: MarketState, strategies: map<string, Strategy>) {
    outcome.Dispatched? ==>
      && MapStateToStrategy(state) == Some(outcome.strategyName)
      && outcome.strategyName in strategies
      && state in strategies[outcome.strategyName].allowedStates
  }

  /** A frame's fresh or memoised state column is consistent with its bars. */
  ghost predicate FramesReady(machine: MarketStateMachine, frameObjs: seq<BarFrame>)
    reads frameObjs
  {
    forall k :: 0 <= k < |frameObjs| ==> machine.Memoised(frameObjs[k])
  }

  /** What routing reads and changes, as one value: the router's own maps, every strategy's
      per-symbol state and the ledger. */
  datatype RouteState = RouteState(router: RouterView, views: map<string, StrategyView>, book: Book)

  /** What routing is configured with: the strategies by name, the cooldown length, the
      broker's commission rate and the state machine's stability period. */
  datatype RouteSetup = RouteSetup(strategies: map<string, Strategy>, cooldownBars: int, rate: real, period: int)

  /** The state route may run on: a valid ledger and a view for every strategy. */
  ghost predicate Routable(rs: RouteSetup, w: RouteState) {
    BookValid(w.book) && StrategiesValid(rs.strategies) && rs.strategies.Keys <= w.views.Keys
  }

  /** get_state then route for one symbol, on values. */
  function RouteStepOn(rs: RouteSetup, symbol: string, bars: seq<Bar>, i: nat, gate: RiskGate,
                       prices: map<string, real>, w: RouteState): (r: (RouteOutcome, RouteState))
    requires i < |bars| && Routable(rs, w)
    ensures Routable(rs, r.1)
  {
    var s := RouteOn(rs.strategies, rs.cooldownBars, rs.rate, symbol, i, bars, StateAt(rs.period, bars, i), gate, prices,
                     w.router, w.views, w.book);
    (s.0, RouteState(s.1, s.2, s.3))
  }

  /** A routing pass over symbols[0] to symbols[n - 1] at bar i: pass[k] is the state symbol k
      is routed on, and outcome k together with pass[k + 1] is what get_state then route does
      for symbol k on that state. */
  ghost predicate RoutedUpTo(rs: RouteSetup, symbols: seq<string>, frames: seq<seq<Bar>>, i: nat, gate: RiskGate,
                             prices: map<string, real>, outcomes: seq<RouteOutcome>, pass: seq<RouteState>, n: nat)
    requires n <= |symbols| == |frames| && forall k :: 0 <= k < |frames| ==> i < |frames[k]|
  {
    && |outcomes| == n && |pass| == n + 1
    && (forall k :: 0 <= k <= n ==> Routable(rs, pass[k]))
    && forall k :: 0 <= k < n ==>
         (outcomes[k], pass[k + 1]) == RouteStepOn(rs, symbols[k], frames[k], i, gate, prices, pass[k])
  }

  /** Routing one more symbol extends a pass. */
  lemma PassExtend(rs: RouteSetup, symbols: seq<string>, frames: seq<seq<Bar>>, i: nat, gate: RiskGate,
                   prices: map<string, real>, outcomes: seq<RouteOutcome>, pass: seq<RouteState>, n: nat,
                   outcome: RouteOutcome, w: RouteState)
    requires n < |symbols| == |frames| && forall k :: 0 <= k < |frames| ==> i < |frames[k]|
    requires RoutedUpTo(rs, symbols, frames, i, gate, prices, outcomes, pass, n)
    requires (outcome, w) == RouteStepOn(rs, symbols[n], frames[n], i, gate, prices, pass[n])
    ensures RoutedUpTo(rs, symbols, frames, i, gate, prices, outcomes + [outcome], pass + [w], n + 1)
  {
    var o', p' := outcomes + [outcome], pass + [w];
    forall k | 0 <= k <= n + 1 ensures Routable(rs, p'[k]) {
      if k <= n { assert p'[k] == pass[k]; }
    }
    forall k | 0 <= k < n + 1
      ensures (o'[k], p'[k + 1]) == RouteStepOn(rs, symbols[k], frames[k], i, gate, prices, p'[k])
    {
      assert p'[k] == pass[k];
      if k < n { assert o'[k] == outcomes[k] && p'[k + 1] == pass[k + 1]; }
    }
  }

  /** Two passes from the same state agree up to step k. */
  lemma {:induction false} PassesAgree(rs: RouteSetup, symbols: seq<string>, frames: seq<seq<Bar>>, i: nat,
                                       gate: RiskGate, prices: map<string, real>, o1: seq<RouteOutcome>,
                                       p1: seq<RouteState>, o2: seq<RouteOutcome>, p2: seq<RouteState>, n: nat, k: nat)
    requires n <= |symbols| == |frames| && forall j :: 0 <= j < |frames| ==> i < |frames[j]|
    requires RoutedUpTo(rs, symbols, frames, i, gate, prices, o1, p1, n)
    requires RoutedUpTo(rs, symbols, frames, i, gate, prices, o2, p2, n)
    requires p1[0] == p2[0] && k <= n
    ensures p1[k] == p2[k]
  {
    if k > 0 {
      PassesAgree(rs, symbols, frames, i, gate, prices, o1, p1, o2, p2, n, k - 1);
      assert p1[k] == RouteStepOn(rs, symbols[k - 1], frames[k - 1], i, gate, prices, p1[k - 1]).1;
    }
  }

  /** A pass is determined by the state it starts from: the routing loop is a function of it. */
  lemma PassIsDetermined(rs: RouteSetup, symbols: seq<string>, frames: seq<seq<Bar>>, i: nat, gate: RiskGate,
                         prices: map<string, real>, o1: seq<RouteOutcome>, p1: seq<RouteState>,
                         o2: seq<RouteOutcome>, p2: seq<RouteState>, n: nat)
    requires n <= |symbols| == |frames| && forall j :: 0 <= j < |frames| ==> i < |frames[j]|
    requires RoutedUpTo(rs, symbols, frames, i, gate, prices, o1, p1, n)
    requires RoutedUpTo(rs, symbols, frames, i, gate, prices, o2, p2, n)
    requires p1[0] == p2[0]
    ensures o1 == o2 && p1 == p2
  {
    forall k | 0 <= k <= n ensures p1[k] == p2[k] {
      PassesAgree(rs, symbols, frames, i, gate, prices, o1, p1, o2, p2, n, k);
    }
    forall k | 0 <= k < n ensures o1[k] == o2[k] {
      assert (o1[k], p1[k + 1]) == RouteStepOn(rs, symbols[k], frames[k], i, gate, prices, p1[k]);
      assert (o2[k], p2[k + 1]) == RouteStepOn(rs, symbols[k], frames[k], i, gate, prices, p2[k]);
    }
  }

  /** Every dispatched outcome of a pass went to the strategy its symbol's state maps to, in a
      state that strategy allows, and its order is that strategy's on_bar order on the
      strategy's own state and the ledger as the earlier symbols left them. */
  lemma PassDispatches(rs: RouteSetup, symbols: seq<string>, frames: seq<seq<Bar>>, i: nat, gate: RiskGate,
                       prices: map<string, real>, outcomes: seq<RouteOutcome>, pass: seq<RouteState>, n: nat)
    requires n <= |symbols| == |frames| && forall j :: 0 <= j < |frames| ==> i < |frames[j]|
    requires RoutedUpTo(rs, symbols, frames, i, gate, prices, outcomes, pass, n)
    ensures forall k :: 0 <= k < n ==>
      var o := outcomes[k];
      var v := pass[k];
      var state := StateAt(rs.period, frames[k], i);
      && RoutedTo(o, state, rs.strategies)
      && (o.Dispatched? ==>
            OnBarOrder(o.order, rs.strategies[o.strategyName].kind, symbols[k], frames[k], i, state,
                       PositionIn(v.book, symbols[k]).qty, ContextOf(v.views[o.strategyName].context, symbols[k]),
                       TradeStateOf(v.views[o.strategyName].tradeState, symbols[k]), gate, v.book.cash,
                       v.book.positions, v.book.order, prices))
  {
    forall k | 0 <= k < n
      ensures var o := outcomes[k];
        var v := pass[k];
        var state := StateAt(rs.period, frames[k], i);
        && RoutedTo(o, state, rs.strategies)
        && (o.Dispatched? ==>
              OnBarOrder(o.order, rs.strategies[o.strategyName].kind, symbols[k], frames[k], i, state,
                         PositionIn(v.book, symbols[k]).qty, ContextOf(v.views[o.strategyName].context, symbols[k]),
                         TradeStateOf(v.views[o.strategyName].tradeState, symbols[k]), gate, v.book.cash,
                         v.book.positions, v.book.order, prices))
    {
      var v := pass[k];
      assert (outcomes[k], pass[k + 1]) == RouteStepOn(rs, symbols[k], frames[k], i, gate, prices, v);
      RouteDispatchesMapped(rs.strategies, rs.cooldownBars, rs.rate, symbols[k], i, frames[k],
                            StateAt(rs.period, frames[k], i), gate, prices, v.router, v.views, v.book);
    }
  }

  /** In a pass, symbol k switches exactly when its cooldown is over and its recorded state
      differs from the new one; a switch restarts the cooldown, records the state, resets the
      outgoing strategy's context and force-closes the symbol at the bar's close. */
  lemma PassSwitches(rs: RouteSetup, symbols: seq<string>, frames: seq<seq<Bar>>, i: nat, gate: RiskGate,
                     prices: map<string, real>, outcomes: seq<RouteOutcome>, pass: seq<RouteState>, n: nat, k: nat)
    requires n <= |symbols| == |frames| && forall j :: 0 <= j < |frames| ==> i < |frames[j]|
    requires RoutedUpTo(rs, symbols, frames, i, gate, prices, outcomes, pass, n) && k < n
    ensures var v := pass[k].router;
      var s := symbols[k];
      var state := StateAt(rs.period, frames[k], i);
      && (outcomes[k] == InCooldown <==> s in v.cooldowns && i <= v.cooldowns[s])
      && (outcomes[k] == InCooldown ==> pass[k + 1] == pass[k])
      && (outcomes[k].Switched? <==>
            !(s in v.cooldowns && i <= v.cooldowns[s]) && s in v.symbolStates && v.symbolStates[s] != state)
      && (outcomes[k].Switched? ==>
            && pass[k + 1].router ==
                 RouterView(v.symbolStates[s := state], v.cooldowns[s := i + rs.cooldownBars])
            && (outcomes[k].closing, pass[k + 1].book) == ForcedClose(pass[k].book, s, frames[k][i], rs.rate)
            && pass[k + 1].views == ResetView(pass[k].views, s, v.symbolStates[s]))
  {
    var v := pass[k];
    assert Routable(rs, v);
    assert (outcomes[k], pass[k + 1]) == RouteStepOn(rs, symbols[k], frames[k], i, gate, prices, pass[k]);
    RouteCases(rs.strategies, rs.cooldownBars, rs.rate, symbols[k], i, frames[k], StateAt(rs.period, frames[k], i),
               gate, prices, v.router, v.views, v.book);
  }

  /** One get_state then route only closes: the ledger gains no symbol, every other symbol
      keeps its position, and a ledger that holds nothing is left alone with no trade booked. */
  lemma StepOnlyCloses(rs: RouteSetup, symbol: string, bars: seq<Bar>, i: nat, gate: RiskGate,
                       prices: map<string, real>, v: RouteState, outcome: RouteOutcome, w: RouteState)
    requires i < |bars| && Routable(rs, v) && (outcome, w) == RouteStepOn(rs, symbol, bars, i, gate, prices, v)
    ensures w.book.positions.Keys <= v.book.positions.Keys
    ensures forall s :: s in v.book.positions && s != symbol ==>
      s in w.book.positions && w.book.positions[s] == v.book.positions[s]
    ensures v.book.positions == map[] ==> w.book == v.book && ClosingTrades(outcome) == []
  {
    RouteTouchesOnlySymbol(rs.strategies, rs.cooldownBars, rs.rate, symbol, i, bars, StateAt(rs.period, bars, i), gate,
                           prices, v.router, v.views, v.book);
    forall s | s in v.book.positions && s != symbol
      ensures s in w.book.positions && w.book.positions[s] == v.book.positions[s]
    {
      assert s in v.book.positions - {symbol};
    }
  }

  /** Up to step k a pass only closes: it adds no symbol to the ledger and leaves every symbol
      it has not yet routed as it was. */
  lemma {:induction false} PassOnlyClosesTo(rs: RouteSetup, symbols: seq<string>, frames: seq<seq<Bar>>, i: nat,
                                            gate: RiskGate, prices: map<string, real>, outcomes: seq<RouteOutcome>,
                                            pass: seq<RouteState>, n: nat, k: nat)
    requires n <= |symbols| == |frames| && forall j :: 0 <= j < |frames| ==> i < |frames[j]|
    requires RoutedUpTo(rs, symbols, frames, i, gate, prices, outcomes, pass, n) && k <= n
    ensures pass[k].book.positions.Keys <= pass[0].book.positions.Keys
    ensures forall s :: s in pass[0].book.positions && s !in symbols[..k] ==>
      s in pass[k].book.positions && pass[k].book.positions[s] == pass[0].book.positions[s]
  {
    if k > 0 {
      PassOnlyClosesTo(rs, symbols, frames, i, gate, prices, outcomes, pass, n, k - 1);
      assert (outcomes[k - 1], pass[k]) == RouteStepOn(rs, symbols[k - 1], frames[k - 1], i, gate, prices, pass[k - 1]);
      StepOnlyCloses(rs, symbols[k - 1], frames[k - 1], i, gate, prices, pass[k - 1], outcomes[k - 1], pass[k]);
      assert symbols[..k] == symbols[..k - 1] + [symbols[k - 1]];
      forall s | s in pass[0].book.positions && s !in symbols[..k]
        ensures s in pass[k].book.positions && pass[k].book.positions[s] == pass[0].book.positions[s]
      {
        assert s != symbols[k - 1] && s in pass[k - 1].book.positions;
      }
    }
  }

  /** Up to step k a pass that starts from an empty ledger leaves it as it was and books no trade. */
  lemma {:induction false} PassIdleOnEmpty(rs: RouteSetup, symbols: seq<string>, frames: seq<seq<Bar>>, i: nat,
                                           gate: RiskGate, prices: map<string, real>, outcomes: seq<RouteOutcome>,
                                           pass: seq<RouteState>, n: nat, k: nat)
    requires n <= |symbols| == |frames| && forall j :: 0 <= j < |frames| ==> i < |frames[j]|
    requires RoutedUpTo(rs, symbols, frames, i, gate, prices, outcomes, pass, n) && k <= n
    requires pass[0].book.positions == map[]
    ensures pass[k].book == pass[0].book && ClosingTradesOf(outcomes[..k]) == []
  {
    if k > 0 {
      PassIdleOnEmpty(rs, symbols, frames, i, gate, prices, outcomes, pass, n, k - 1);
      assert (outcomes[k - 1], pass[k]) == RouteStepOn(rs, symbols[k - 1], frames[k - 1], i, gate, prices, pass[k - 1]);
      StepOnlyCloses(rs, symbols[k - 1], frames[k - 1], i, gate, prices, pass[k - 1], outcomes[k - 1], pass[k]);
      assert outcomes[..k][..k - 1] == outcomes[..k - 1] && outcomes[..k][k - 1] == outcomes[k - 1];
    }
  }

  /** The else branch: for every symbol in order, get_state then route. The ghost results are
      the pass: each route call's outcome and the state it leaves. */
  method RouteAll(router: Router, broker: Broker, machine: MarketStateMachine, symbols: seq<string>,
                  frames: seq<seq<Bar>>, frameObjs: seq<BarFrame>, i: nat, gate: RiskGate, prices: map<string, real>)
    returns (orders: seq<OrderRequest>, ghost outcomes: seq<RouteOutcome>, ghost pass: seq<RouteState>)
    requires router.Valid() && broker.Valid()
    requires |symbols| == |frames| == |frameObjs| && FramesReady(machine, frameObjs)
    requires forall k :: 0 <= k < |frameObjs| ==> frameObjs[k].bars == frames[k] && i < |frames[k]|
    modifies router, broker, broker.portfolio, router.strategies.Values, set k | 0 <= k < |frameObjs| :: frameObjs[k]
    ensures router.Valid() && broker.Valid() && FramesReady(machine, frameObjs)
    ensures RoutedUpTo(RouteSetup(router.strategies, router.cooldownBars, broker.commissionRate, machine.stabilityPeriod),
                       symbols, frames, i, gate, prices, outcomes, pass, |symbols|)
    ensures pass[0] == RouteState(old(router.View()), old(router.Views()), old(broker.portfolio.Snapshot()))
    ensures pass[|symbols|] == RouteState(router.View(), router.Views(), broker.portfolio.Snapshot())
    ensures orders == OrdersOf(outcomes)
    ensures broker.trades == old(broker.trades) + ClosingTradesOf(outcomes)
  {
    orders := [];
    outcomes := [];
    pass := [RouteState(router.View(), router.Views(), broker.portfolio.Snapshot())];
    for k := 0 to |symbols|
      invariant router.Valid() && broker.Valid() && FramesReady(machine, frameObjs)
      invariant RoutedUpTo(RouteSetup(router.strategies, router.cooldownBars, broker.commissionRate, machine.stabilityPeriod),
                           symbols, frames, i, gate, prices, outcomes, pass, k)
      invariant pass[0] == RouteState(old(router.View()), old(router.Views()), old(broker.portfolio.Snapshot()))
      invariant pass[k] == RouteState(router.View(), router.Views(), broker.portfolio.Snapshot())
      invariant orders == OrdersOf(outcomes)
      invariant broker.trades == old(broker.trades) + ClosingTradesOf(outcomes)
    {
      orders, outcomes, pass := RouteNext(router, broker, machine, symbols, frames, frameObjs, i, gate, prices, k, orders,
                                          outcomes, pass, old(broker.trades));
    }
  }

  /** Turn k of route_all: symbol k is routed and its outcome and state extend the pass. */
  method RouteNext(router: Router, broker: Broker, machine: MarketStateMachine, symbols: seq<string>,
                   frames: seq<seq<Bar>>, frameObjs: seq<BarFrame>, i: nat, gate: RiskGate, prices: map<string, real>,
                   k: nat, orders: seq<OrderRequest>, ghost outcomes: seq<RouteOutcome>, ghost pass: seq<RouteState>,
                   ghost trades0: seq<TradeRecord>)
    returns (orders': seq<OrderRequest>, ghost outcomes': seq<RouteOutcome>, ghost pass': seq<RouteState>)
    requires router.Valid() && broker.Valid() && k < |symbols|
    requires |symbols| == |frames| == |frameObjs| && FramesReady(machine, frameObjs)
    requires forall j :: 0 <= j < |frameObjs| ==> frameObjs[j].bars == frames[j] && i < |frames[j]|
    requires RoutedUpTo(RouteSetup(router.strategies, router.cooldownBars, broker.commissionRate, machine.stabilityPeriod),
                        symbols, frames, i, gate, prices, outcomes, pass, k)
    requires pass[k] == RouteState(router.View(), router.Views(), broker.portfolio.Snapshot())
    requires orders == OrdersOf(outcomes) && broker.trades == trades0 + ClosingTradesOf(outcomes)
    modifies router, broker, broker.portfolio, router.strategies.Values, set j | 0 <= j < |frameObjs| :: frameObjs[j]
    ensures router.Valid() && broker.Valid() && FramesReady(machine, frameObjs)
    ensures RoutedUpTo(RouteSetup(router.strategies, router.cooldownBars, broker.commissionRate, machine.stabilityPeriod),
                       symbols, frames, i, gate, prices, outcomes', pass', k + 1)
    ensures pass'[0] == pass[0] && pass'[k + 1] == RouteState(router.View(), router.Views(), broker.portfolio.Snapshot())
    ensures orders' == OrdersOf(outcomes') && broker.trades == trades0 + ClosingTradesOf(outcomes')
  {
    var outcome := RouteStep(router, broker, machine, frameObjs[k], symbols[k], i, gate, prices);
    forall j | 0 <= j < |frameObjs| ensures machine.Memoised(frameObjs[j]) {
      if frameObjs[j] != frameObjs[k] {
        assert frameObjs[j].marketState == old(frameObjs[j].marketState);
      }
    }
    ghost var w := RouteState(router.View(), router.Views(), broker.portfolio.Snapshot());
    PassExtend(RouteSetup(router.strategies, router.cooldownBars, broker.commissionRate, machine.stabilityPeriod),
               symbols, frames, i, gate, prices, outcomes, pass, k, outcome, w);
    outcomes' := outcomes + [outcome];
    pass' := pass + [w];
    assert outcomes'[..k] == outcomes && outcomes'[k] == outcome;
    orders' := orders;
    if outcome.Dispatched? && outcome.order.Some? {
      orders' := orders + [outcome.order.value];
    }
  }

  /** get_state then route for one symbol. */
  method RouteStep(router: Router, broker: Broker, machine: MarketStateMachine, frame: BarFrame, symbol: string,
                   i: nat, gate: RiskGate, prices: map<string, real>) returns (outcome: RouteOutcome)
    requires router.Valid() && broker.Valid() && i < |frame.bars| && machine.Memoised(frame)
    modifies router, broker, broker.portfolio, router.strategies.Values, frame
    ensures router.Valid() && broker.Valid() && machine.Memoised(frame)
    ensures (outcome, RouteState(router.View(), router.Views(), broker.portfolio.Snapshot())) ==
      RouteStepOn(RouteSetup(router.strategies, router.cooldownBars, broker.commissionRate, machine.stabilityPeriod),
                  symbol, frame.bars, i, gate, prices,
                  RouteState(old(router.View()), old(router.Views()), old(broker.portfolio.Snapshot())))
    ensures broker.trades == old(broker.trades) + ClosingTrades(outcome)
  {
    var state := machine.GetState(frame, i);
    assert router.Views() == old(router.Views());
    outcome := router.Route(symbol, i, frame.bars, state, broker.portfolio, broker, gate, prices);
  }

  // ---------------------------------------------------------------------------
  // The order queue
  // ---------------------------------------------------------------------------

  /** The current_bars_data dict: each symbol's bar i; when a symbol is repeated, the last frame wins. */
  function BarsAt(symbols: seq<string>, frames: seq<seq<Bar>>, i: nat): (r: map<string, Bar>)
    requires |symbols| == |frames| && forall k :: 0 <= k < |frames| ==> i < |frames[k]|
    ensures forall s :: s in r <==> s in symbols
    ensures forall s :: s in r ==> r[s].close == PricesAt(symbols, frames, i)[s]
  {
    if symbols == [] then map[]
    else
      var n := |symbols| - 1;
      BarsAt(symbols[..n], frames[..n], i)[symbols[n] := frames[n][i]]
  }

  /** The loop that builds current_bars_data. */
  method CurrentBars(symbols: seq<string>, frames: seq<seq<Bar>>, i: nat) returns (bars: map<string, Bar>)
    requires |symbols| == |frames| && forall k :: 0 <= k < |frames| ==> i < |frames[k]|
    ensures bars == BarsAt(symbols, frames, i)
  {
    bars := map[];
    for k := 0 to |symbols|
      invariant bars == BarsAt(symbols[..k], frames[..k], i)
    {
      assert symbols[..k + 1][..k] == symbols[..k] && frames[..k + 1][..k] == frames[..k];
      bars := bars[symbols[k] := frames[k][i]];
    }
    assert symbols[..|symbols|] == symbols && frames[..|frames|] == frames;
  }

  /** Where processing the queue has got to: the ledger, the fills booked, and the orders still open. */
  datatype Settlement = Settlement(book: Book, fills: seq<TradeRecord>, open: seq<OrderRequest>)

  /** An order the bar prices: its symbol has a bar and the fill rule gives a price on it. */
  predicate Priced(o: OrderRequest, barsNow: map<string, Bar>, fill: (OrderRequest, Bar) -> Option<real>) {
    o.symbol in barsNow && fill(o, barsNow[o.symbol]).Some?
  }

  /** The orders of a queue the bar does not price, in queue order. */
  function Unpriced(pending: seq<OrderRequest>, barsNow: map<string, Bar>, fill: (OrderRequest, Bar) -> Option<real>)
    : (r: seq<OrderRequest>)
    ensures |r| <= |pending|
    ensures forall o :: o in r <==> o in pending && !Priced(o, barsNow, fill)
  {
    if pending == [] then []
    else
      var n := |pending| - 1;
      assert pending == pending[..n] + [pending[n]];
      var init := Unpriced(pending[..n], barsNow, fill);
      if Priced(pending[n], barsNow, fill) then init else init + [pending[n]]
  }

  /** One queued order at process time: a priced order goes through execute_order at its fill
      price and the bar's stamp, and leaves the queue whether it fills or is rejected; any
      other order stays queued. */
  function SettleOne(st: Settlement, o: OrderRequest, barsNow: map<string, Bar>, fill: (OrderRequest, Bar) -> Option<real>,
                     t: int, slippage: real, rate: real): (r: Settlement)
    requires BookValid(st.book)
    ensures BookValid(r.book)
    ensures !Priced(o, barsNow, fill) ==> r == Settlement(st.book, st.fills, st.open + [o])
    ensures Priced(o, barsNow, fill) ==>
      var e := ExecuteOn(st.book, o.symbol, SideName(o.side), o.qty, fill(o, barsNow[o.symbol]).value, t, slippage, rate, o.strategyId);
      && r.book == e.1 && r.open == st.open
      && r.fills == if e.0.Filled? then st.fills + [e.0.record] else st.fills
  {
    if Priced(o, barsNow, fill) then
      var e := ExecuteOn(st.book, o.symbol, SideName(o.side), o.qty, fill(o, barsNow[o.symbol]).value, t, slippage, rate, o.strategyId);
      Settlement(e.1, if e.0.Filled? then st.fills + [e.0.record] else st.fills, st.open)
    else
      Settlement(st.book, st.fills, st.open + [o])
  }

  /** process_orders: every queued order in submission order, each against the ledger the
      earlier ones left. */
  function Settle(st: Settlement, pending: seq<OrderRequest>, barsNow: map<string, Bar>,
                  fill: (OrderRequest, Bar) -> Option<real>, t: int, slippage: real, rate: real): (r: Settlement)
    requires BookValid(st.book)
    ensures BookValid(r.book)
  {
    if pending == [] then st
    else
      var n := |pending| - 1;
      SettleOne(Settle(st, pending[..n], barsNow, fill, t, slippage, rate), pending[n], barsNow, fill, t, slippage, rate)
  }

  /** The orders left open are exactly the unpriced ones, in queue order. */
  lemma {:induction false} SettleLeavesUnpriced(st: Settlement, pending: seq<OrderRequest>, barsNow: map<string, Bar>,
                                                fill: (OrderRequest, Bar) -> Option<real>, t: int, slippage: real, rate: real)
    requires BookValid(st.book)
    ensures Settle(st, pending, barsNow, fill, t, slippage, rate).open == st.open + Unpriced(pending, barsNow, fill)
  {
    if pending != [] {
      var n := |pending| - 1;
      SettleLeavesUnpriced(st, pending[..n], barsNow, fill, t, slippage, rate);
      assert pending == pending[..n] + [pending[n]];
    }
  }

  /** The fills extend the log, at most one per queued order. */
  lemma {:induction false} SettleExtendsFills(st: Settlement, pending: seq<OrderRequest>, barsNow: map<string, Bar>,
                                              fill: (OrderRequest, Bar) -> Option<real>, t: int, slippage: real, rate: real)
    requires BookValid(st.book)
    ensures var r := Settle(st, pending, barsNow, fill, t, slippage, rate);
            |st.fills| <= |r.fills| <= |st.fills| + |pending| && r.fills[..|st.fills|] == st.fills
  {
    if pending != [] {
      var n := |pending| - 1;
      SettleExtendsFills(st, pending[..n], barsNow, fill, t, slippage, rate);
      var prev := Settle(st, pending[..n], barsNow, fill, t, slippage, rate);
      var r := SettleOne(prev, pending[n], barsNow, fill, t, slippage, rate);
      assert r.fills[..|st.fills|] == prev.fills[..|st.fills|];
    }
  }

  /** A bar that prices none of the queue leaves the ledger and the log as they were. */
  lemma {:induction false} SettleUnpricedIsIdle(st: Settlement, pending: seq<OrderRequest>, barsNow: map<string, Bar>,
                                                fill: (OrderRequest, Bar) -> Option<real>, t: int, slippage: real, rate: real)
    requires BookValid(st.book)
    requires forall o :: o in pending ==> !Priced(o, barsNow, fill)
    ensures var r := Settle(st, pending, barsNow, fill, t, slippage, rate);
            r.book == st.book && r.fills == st.fills
  {
    if pending != [] {
      var n := |pending| - 1;
      assert forall o :: o in pending[..n] ==> o in pending;
      SettleUnpricedIsIdle(st, pending[..n], barsNow, fill, t, slippage, rate);
    }
  }

  /** Fills only touch symbols that have a bar, so a ledger holding only those keeps doing so. */
  lemma {:induction false} SettleHolds(st: Settlement, pending: seq<OrderRequest>, barsNow: map<string, Bar>,
                                       fill: (OrderRequest, Bar) -> Option<real>, t: int, slippage: real, rate: real)
    requires BookValid(st.book) && forall s :: s in st.book.positions ==> s in barsNow
    ensures forall s :: s in Settle(st, pending, barsNow, fill, t, slippage, rate).book.positions ==> s in barsNow
  {
    if pending != [] {
      var n := |pending| - 1;
      SettleHolds(st, pending[..n], barsNow, fill, t, slippage, rate);
      var prev := Settle(st, pending[..n], barsNow, fill, t, slippage, rate);
      var o := pending[n];
      if Priced(o, barsNow, fill) {
        var e := ExecuteOn(prev.book, o.symbol, SideName(o.side), o.qty, fill(o, barsNow[o.symbol]).value, t, slippage,
                           rate, o.strategyId);
        forall s | s in e.1.positions ensures s in barsNow {
          if s != o.symbol { assert s in e.1.positions - {o.symbol}; }
        }
      }
    }
  }

  /** The broker's order processing on one bar. */
  method ProcessOrders(broker: Broker, pending: seq<OrderRequest>, barsNow: map<string, Bar>,
                       fill: (OrderRequest, Bar) -> Option<real>, t: int, slippage: real)
    returns (open: seq<OrderRequest>)
    requires broker.Valid()
    modifies broker, broker.portfolio
    ensures broker.Valid()
    ensures var r := Settle(Settlement(old(broker.portfolio.Snapshot()), [], []), pending, barsNow, fill, t, slippage,
                            broker.commissionRate);
            broker.portfolio.Snapshot() == r.book && broker.trades == old(broker.trades) + r.fills && open == r.open
  {
    var portfolio := broker.portfolio;
    ghost var seed := Settlement(portfolio.Snapshot(), [], []);
    ghost var log := broker.trades;
    ghost var fills: seq<TradeRecord> := [];
    open := [];
    for k := 0 to |pending|
      invariant broker.Valid()
      invariant Settle(seed, pending[..k], barsNow, fill, t, slippage, broker.commissionRate)
                == Settlement(portfolio.Snapshot(), fills, open)
      invariant broker.trades == log + fills
    {
      assert pending[..k + 1][..k] == pending[..k];
      var o := pending[k];
      if o.symbol in barsNow && fill(o, barsNow[o.symbol]).Some? {
        var r := broker.ExecuteOrder(o.symbol, SideName(o.side), o.qty, fill(o, barsNow[o.symbol]).value, t, slippage,
                                     o.strategyId);
        if r.Filled? {
          fills := fills + [r.record];
        }
      } else {
        open := open + [o];
      }
    }
    assert pending[..|pending|] == pending;
  }

  // ---------------------------------------------------------------------------
  // The loop
  // ---------------------------------------------------------------------------

  /** The routing configuration of a run: the router's strategies and cooldown, the broker's
      commission rate and the state machine's stability period. */
  function RoutingOf(setup: Setup, strategies: map<string, Strategy>, cooldownBars: int): RouteSetup {
    RouteSetup(strategies, cooldownBars, setup.commissionRate, setup.stabilityPeriod)
  }

  /** What one bar after the warm-up does, as values: the queue is processed on the bar's
      prices against the ledger it finds; the result is marked and the breaker judges that
      value against the daily reference; on a trip the bar submits the flatten orders and
      routes nothing, so the ledger stays as marked and no router or strategy state changes;
      otherwise every symbol is routed in turn starting from the marked ledger (the pass), the
      bar submits the dispatched orders and ends in the state the last route call leaves; the
      row marks the ledger at the end of the bar; the next queue is what stayed open followed
      by what the bar submitted. */
  ghost predicate LiveBar(setup: Setup, strategies: map<string, Strategy>, cooldownBars: int, symbols: seq<string>,
                          frames: seq<seq<Bar>>, fill: (OrderRequest, Bar) -> Option<real>,
                          breaker: (real, real) -> bool, i: nat, t: int, reference: real,
                          before: RouteState, queue: seq<OrderRequest>, marked: Book, trip: bool,
                          outcomes: seq<RouteOutcome>, pass: seq<RouteState>,
                          orders: seq<OrderRequest>, after: RouteState, next: seq<OrderRequest>, row: EquityRow)
    requires |symbols| == |frames| && forall k :: 0 <= k < |frames| ==> i < |frames[k]|
  {
    var prices := PricesAt(symbols, frames, i);
    && BookValid(before.book)
    && var st := Settle(Settlement(before.book, [], []), queue, BarsAt(symbols, frames, i), fill, t, setup.slippage,
                        setup.commissionRate);
    && marked == st.book && next == st.open + orders
    && (forall s :: s in marked.positions ==> s in symbols)
    && trip == breaker(BookValue(marked, prices), reference)
    && (trip ==>
          && orders == FlattenIntents(marked.order, marked.positions, prices, t)
          && after == before.(book := marked) && outcomes == [] && pass == [after])
    && (!trip ==>
          && RoutedUpTo(RoutingOf(setup, strategies, cooldownBars), symbols, frames, i, setup.gate, prices, outcomes,
                        pass, |symbols|)
          && pass[0] == before.(book := marked) && after == pass[|symbols|] && orders == OrdersOf(outcomes))
    && BookValid(after.book)
    && row == EquityRow(t, BookValue(after.book, prices), after.book.cash)
  }

  /** A live bar ends with no symbol that its fills did not leave held, and a bar whose fills
      leave nothing held ends with the ledger as marked: routing only closes. */
  lemma LiveBarOnlyCloses(setup: Setup, strategies: map<string, Strategy>, cooldownBars: int, symbols: seq<string>,
                          frames: seq<seq<Bar>>, fill: (OrderRequest, Bar) -> Option<real>,
                          breaker: (real, real) -> bool, i: nat, t: int, reference: real,
                          before: RouteState, queue: seq<OrderRequest>, marked: Book, trip: bool,
                          outcomes: seq<RouteOutcome>, pass: seq<RouteState>,
                          orders: seq<OrderRequest>, after: RouteState, next: seq<OrderRequest>, row: EquityRow)
    requires |symbols| == |frames| && forall k :: 0 <= k < |frames| ==> i < |frames[k]|
    requires LiveBar(setup, strategies, cooldownBars, symbols, frames, fill, breaker, i, t, reference, before, queue,
                     marked, trip, outcomes, pass, orders, after, next, row)
    ensures forall s :: s in after.book.positions ==> s in marked.positions && s in symbols
    ensures marked.positions == map[] ==> after.book == marked
  {
    if !trip {
      PassOnlyClosesTo(RoutingOf(setup, strategies, cooldownBars), symbols, frames, i, setup.gate,
                       PricesAt(symbols, frames, i), outcomes, pass, |symbols|, |symbols|);
      if marked.positions == map[] {
        PassIdleOnEmpty(RoutingOf(setup, strategies, cooldownBars), symbols, frames, i, setup.gate,
                        PricesAt(symbols, frames, i), outcomes, pass, |symbols|, |symbols|);
      }
    }
  }

  /** One bar after the warm-up: process the queue at the bar's prices, mark the book, consult
      the breaker against the daily reference, then either the flatten orders (no routing) or
      routing of every symbol; the equity row is taken after both. */
  method ProcessBar(router: Router, broker: Broker, machine: MarketStateMachine, symbols: seq<string>,
                    frames: seq<seq<Bar>>, frameObjs: seq<BarFrame>, i: nat, t: int, gate: RiskGate,
                    breaker: (real, real) -> bool, dailyStart: real,
                    pending: seq<OrderRequest>, fill: (OrderRequest, Bar) -> Option<real>, slippage: real,
                    ghost before: RouteState)
    returns (row: EquityRow, trip: bool, intents: seq<OrderRequest>, open: seq<OrderRequest>, ghost marked: Book,
             ghost outcomes: seq<RouteOutcome>, ghost pass: seq<RouteState>)
    requires router.Valid() && broker.Valid() && forall s :: s in broker.portfolio.positions ==> s in symbols
    requires before == RouteState(router.View(), router.Views(), broker.portfolio.Snapshot())
    requires |symbols| == |frames| == |frameObjs| && FramesReady(machine, frameObjs)
    requires forall k :: 0 <= k < |frames| ==> i < |frames[k]| && frameObjs[k].bars == frames[k]
    modifies router, broker, broker.portfolio, router.strategies.Values, set k | 0 <= k < |frameObjs| :: frameObjs[k]
    ensures router.Valid() && broker.Valid() && FramesReady(machine, frameObjs)
    ensures var st := Settle(Settlement(before.book, [], []), pending, BarsAt(symbols, frames, i), fill,
                             t, slippage, broker.commissionRate);
            marked == st.book && open == st.open
    ensures BookValid(marked) && forall s :: s in marked.positions ==> s in symbols
    ensures trip == breaker(BookValue(marked, PricesAt(symbols, frames, i)), dailyStart)
    ensures trip ==>
      && intents == FlattenIntents(marked.order, marked.positions, PricesAt(symbols, frames, i), t)
      && RouteState(router.View(), router.Views(), broker.portfolio.Snapshot()) == before.(book := marked)
      && outcomes == [] && pass == [before.(book := marked)]
    ensures !trip ==>
      && RoutedUpTo(RouteSetup(router.strategies, router.cooldownBars, broker.commissionRate, machine.stabilityPeriod),
                    symbols, frames, i, gate, PricesAt(symbols, frames, i), outcomes, pass, |symbols|)
      && pass[0] == before.(book := marked) && pass[|symbols|] == RouteState(router.View(), router.Views(), broker.portfolio.Snapshot())
      && intents == OrdersOf(outcomes)
    ensures row == EquityRow(t, BookValue(broker.portfolio.Snapshot(), PricesAt(symbols, frames, i)), broker.portfolio.cash)
  {
    var prices;
    open, marked, prices, trip := SettleAndJudge(broker, symbols, frames, i, t, pending, fill, slippage, breaker, dailyStart);
    assert RouteState(router.View(), router.Views(), broker.portfolio.Snapshot()) == before.(book := marked);
    intents, outcomes, pass := ActOnBar(router, broker, machine, symbols, frames, frameObjs, i, t, gate, prices, trip,
                                        before.(book := marked));
    var total := broker.portfolio.GetTotalValue(prices);
    row := EquityRow(t, total, broker.portfolio.cash);
  }

  /** The first half of a bar: process the queue, build the prices, mark the book, consult the breaker. */
  method SettleAndJudge(broker: Broker, symbols: seq<string>, frames: seq<seq<Bar>>, i: nat, t: int,
                        pending: seq<OrderRequest>, fill: (OrderRequest, Bar) -> Option<real>, slippage: real,
                        breaker: (real, real) -> bool, dailyStart: real)
    returns (open: seq<OrderRequest>, ghost marked: Book, prices: map<string, real>, trip: bool)
    requires broker.Valid() && forall s :: s in broker.portfolio.positions ==> s in symbols
    requires |symbols| == |frames| && forall k :: 0 <= k < |frames| ==> i < |frames[k]|
    modifies broker, broker.portfolio
    ensures broker.Valid()
    ensures var st := Settle(Settlement(old(broker.portfolio.Snapshot()), [], []), pending, BarsAt(symbols, frames, i), fill,
                             t, slippage, broker.commissionRate);
            marked == st.book && open == st.open
    ensures broker.portfolio.Snapshot() == marked && prices == PricesAt(symbols, frames, i)
    ensures BookValid(marked) && forall s :: s in marked.positions ==> s in symbols
    ensures trip == breaker(BookValue(marked, prices), dailyStart)
  {
    var portfolio := broker.portfolio;
    var barsNow := CurrentBars(symbols, frames, i);
    open := ProcessOrders(broker, pending, barsNow, fill, t, slippage);
    marked := portfolio.Snapshot();
    SettleHolds(Settlement(old(portfolio.Snapshot()), [], []), pending, barsNow, fill, t, slippage, broker.commissionRate);
    prices := CurrentPrices(symbols, frames, i);
    var total := portfolio.GetTotalValue(prices);
    assert total == BookValue(marked, prices);
    trip := breaker(total, dailyStart);
  }

  /** The second half of a bar: the flatten orders on a trip, else routing of every symbol. */
  method ActOnBar(router: Router, broker: Broker, machine: MarketStateMachine, symbols: seq<string>,
                  frames: seq<seq<Bar>>, frameObjs: seq<BarFrame>, i: nat, t: int, gate: RiskGate,
                  prices: map<string, real>, trip: bool, ghost before: RouteState)
    returns (intents: seq<OrderRequest>, ghost outcomes: seq<RouteOutcome>, ghost pass: seq<RouteState>)
    requires router.Valid() && broker.Valid() && forall s :: s in broker.portfolio.positions ==> s in prices
    requires before == RouteState(router.View(), router.Views(), broker.portfolio.Snapshot())
    requires |symbols| == |frames| == |frameObjs| && FramesReady(machine, frameObjs)
    requires forall k :: 0 <= k < |frameObjs| ==> frameObjs[k].bars == frames[k] && i < |frames[k]|
    modifies router, broker, broker.portfolio, router.strategies.Values, set k | 0 <= k < |frameObjs| :: frameObjs[k]
    ensures router.Valid() && broker.Valid() && FramesReady(machine, frameObjs)
    ensures trip ==>
      && intents == FlattenIntents(before.book.order, before.book.positions, prices, t)
      && RouteState(router.View(), router.Views(), broker.portfolio.Snapshot()) == before && outcomes == [] && pass == [before]
    ensures !trip ==>
      && RoutedUpTo(RouteSetup(router.strategies, router.cooldownBars, broker.commissionRate, machine.stabilityPeriod),
                    symbols, frames, i, gate, prices, outcomes, pass, |symbols|)
      && pass[0] == before && pass[|symbols|] == RouteState(router.View(), router.Views(), broker.portfolio.Snapshot())
      && intents == OrdersOf(outcomes)
  {
    if trip {
      intents := FlattenAll(broker.portfolio, prices, t);
      outcomes := [];
      pass := [before];
    } else {
      intents, outcomes, pass := RouteAll(router, broker, machine, symbols, frames, frameObjs, i, gate, prices);
    }
  }

  /** The run's configuration: the engine's constructor arguments and the pieces it builds. */
  datatype Setup = Setup(
    initialCapital: real, warmup: int, commissionRate: real, slippage: real, stabilityPeriod: int, gate: RiskGate)

  /** The frames get_state works on, one fresh object per symbol. */
  method MakeFrames(frames: seq<seq<Bar>>) returns (frameObjs: seq<BarFrame>)
    ensures |frameObjs| == |frames|
    ensures forall k :: 0 <= k < |frames| ==> fresh(frameObjs[k]) && frameObjs[k].bars == frames[k] && frameObjs[k].marketState.None?
  {
    frameObjs := [];
    for k := 0 to |frames|
      invariant |frameObjs| == k
      invariant forall j :: 0 <= j < k ==> fresh(frameObjs[j]) && frameObjs[j].bars == frames[j] && frameObjs[j].marketState.None?
    {
      var f := new BarFrame(frames[k]);
      frameObjs := frameObjs + [f];
    }
  }

  /** The loop body after the day bookkeeping: a warm-up row of the initial capital, or a processed bar. */
  method RunBar(setup: Setup, router: Router, broker: Broker, machine: MarketStateMachine, symbols: seq<string>,
                frames: seq<seq<Bar>>, frameObjs: seq<BarFrame>, i: nat, t: int, breaker: (real, real) -> bool,
                fill: (OrderRequest, Bar) -> Option<real>, dailyStart: real, pending: seq<OrderRequest>,
                ghost before: RouteState)
    returns (row: EquityRow, trip: bool, orders: seq<OrderRequest>, next: seq<OrderRequest>, ghost mark: Book,
             ghost outcomes: seq<RouteOutcome>, ghost pass: seq<RouteState>)
    requires router.Valid() && broker.Valid() && forall s :: s in broker.portfolio.positions ==> s in symbols
    requires before == RouteState(router.View(), router.Views(), broker.portfolio.Snapshot())
    requires broker.commissionRate == setup.commissionRate && machine.stabilityPeriod == setup.stabilityPeriod
    requires |symbols| == |frames| == |frameObjs| && FramesReady(machine, frameObjs)
    requires forall k :: 0 <= k < |frames| ==> i < |frames[k]| && frameObjs[k].bars == frames[k]
    modifies router, broker, broker.portfolio, router.strategies.Values, set k | 0 <= k < |frameObjs| :: frameObjs[k]
    ensures router.Valid() && broker.Valid() && FramesReady(machine, frameObjs)
    ensures forall s :: s in broker.portfolio.positions ==> s in symbols
    ensures i < setup.warmup ==>
      && row == EquityRow(t, setup.initialCapital, setup.initialCapital) && !trip && orders == [] && next == pending
      && RouteState(router.View(), router.Views(), broker.portfolio.Snapshot()) == before && outcomes == [] && pass == []
    ensures i >= setup.warmup ==>
      LiveBar(setup, router.strategies, router.cooldownBars, symbols, frames, fill, breaker, i, t, dailyStart,
              before, pending, mark, trip, outcomes, pass, orders, RouteState(router.View(), router.Views(), broker.portfolio.Snapshot()), next, row)
  {
    mark := broker.portfolio.Snapshot();
    outcomes := [];
    pass := [];
    if i < setup.warmup {
      row := EquityRow(t, setup.initialCapital, setup.initialCapital);
      trip := false;
      orders := [];
      next := pending;
    } else {
      var open;
      row, trip, orders, open, mark, outcomes, pass := ProcessBar(router, broker, machine, symbols, frames, frameObjs, i, t,
                                                                  setup.gate, breaker, dailyStart, pending, fill,
                                                                  setup.slippage, before);
      next := open + orders;
      LiveBarOnlyCloses(setup, router.strategies, router.cooldownBars, symbols, frames, fill, breaker, i, t, dailyStart,
                        before, pending, mark, trip, outcomes, pass, orders, RouteState(router.View(), router.Views(), broker.portfolio.Snapshot()), next, row);
    }
  }

  /** The ghost record of a run, bar by bar: tripped[k] is the breaker's verdict on bar k,
      states[k] and queues[k] the routing state (router, strategies, ledger) and the queue bar k
      finds, marked[k] the ledger after its fills, routed[k] and passes[k] its routing pass. */
  datatype Trace = Trace(tripped: seq<bool>, states: seq<RouteState>, queues: seq<seq<OrderRequest>>,
                         marked: seq<Book>, routed: seq<seq<RouteOutcome>>, passes: seq<seq<RouteState>>)
  {
    /** The trace records n bars. */
    predicate Covers(n: nat) {
      && |tripped| == n && |marked| == n && |routed| == n && |passes| == n
      && |states| == n + 1 && |queues| == n + 1
    }

    /** The trace with the next bar's entries appended. */
    function Then(trip: bool, state: RouteState, queue: seq<OrderRequest>, mark: Book, outcomes: seq<RouteOutcome>,
                  pass: seq<RouteState>): (r: Trace)
      ensures forall n: nat :: Covers(n) ==> r.Covers(n + 1)
    {
      Trace(tripped + [trip], states + [state], queues + [queue], marked + [mark], routed + [outcomes], passes + [pass])
    }
  }

  /** Bar k of a traced run: its row carries its stamp; a warm-up bar records the initial
      capital, submits nothing and leaves the routing state and the queue alone; a later bar is
      a LiveBar judged against the daily reference of the rows before it. */
  ghost predicate BarRecorded(setup: Setup, strategies: map<string, Strategy>, cooldownBars: int, symbols: seq<string>,
                              axis: seq<int>, frames: seq<seq<Bar>>, fill: (OrderRequest, Bar) -> Option<real>,
                              breaker: (real, real) -> bool, k: nat, curve: seq<EquityRow>,
                              submitted: seq<seq<OrderRequest>>, tr: Trace)
    requires |symbols| == |frames| && forall j :: 0 <= j < |frames| ==> |frames[j]| == |axis|
    requires k < |curve| <= |axis| && |submitted| == |curve| && tr.Covers(|curve|)
  {
    && curve[k].time == axis[k]
    && (k < setup.warmup ==>
          && curve[k] == EquityRow(axis[k], setup.initialCapital, setup.initialCapital) && !tr.tripped[k]
          && submitted[k] == [] && tr.states[k + 1] == tr.states[k] && tr.queues[k + 1] == tr.queues[k]
          && tr.routed[k] == [] && tr.passes[k] == [])
    && (k >= setup.warmup ==>
          LiveBar(setup, strategies, cooldownBars, symbols, frames, fill, breaker, k, axis[k],
                  DailyReference(axis, curve, setup.initialCapital, k), tr.states[k], tr.queues[k], tr.marked[k],
                  tr.tripped[k], tr.routed[k], tr.passes[k], submitted[k], tr.states[k + 1], tr.queues[k + 1], curve[k]))
  }

  /** The first n bars of a run are recorded in the curve, the submitted orders and the trace. */
  ghost predicate Traced(setup: Setup, strategies: map<string, Strategy>, cooldownBars: int, symbols: seq<string>,
                         axis: seq<int>, frames: seq<seq<Bar>>, fill: (OrderRequest, Bar) -> Option<real>,
                         breaker: (real, real) -> bool, n: nat, curve: seq<EquityRow>,
                         submitted: seq<seq<OrderRequest>>, tr: Trace)
    requires |symbols| == |frames| && forall j :: 0 <= j < |frames| ==> |frames[j]| == |axis|
  {
    && n <= |axis| && |curve| == n && |submitted| == n && tr.Covers(n)
    && forall k :: 0 <= k < n ==>
         BarRecorded(setup, strategies, cooldownBars, symbols, axis, frames, fill, breaker, k, curve, submitted, tr)
  }

  /** Appending the next bar's entries keeps every bar already recorded. */
  lemma RecordedStable(setup: Setup, strategies: map<string, Strategy>, cooldownBars: int, symbols: seq<string>,
                       axis: seq<int>, frames: seq<seq<Bar>>, fill: (OrderRequest, Bar) -> Option<real>,
                       breaker: (real, real) -> bool, k: nat, curve: seq<EquityRow>,
                       submitted: seq<seq<OrderRequest>>, tr: Trace, row: EquityRow, orders: seq<OrderRequest>,
                       trip: bool, state: RouteState, queue: seq<OrderRequest>, mark: Book, outcomes: seq<RouteOutcome>,
                       pass: seq<RouteState>)
    requires |symbols| == |frames| && forall j :: 0 <= j < |frames| ==> |frames[j]| == |axis|
    requires |curve| < |axis| && |submitted| == |curve| && tr.Covers(|curve|) && k < |curve|
    requires BarRecorded(setup, strategies, cooldownBars, symbols, axis, frames, fill, breaker, k, curve, submitted, tr)
    ensures BarRecorded(setup, strategies, cooldownBars, symbols, axis, frames, fill, breaker, k, curve + [row],
                        submitted + [orders], tr.Then(trip, state, queue, mark, outcomes, pass))
  {
    var tr' := tr.Then(trip, state, queue, mark, outcomes, pass);
    DailyReferenceStable(axis, curve, row, setup.initialCapital, k);
    assert (curve + [row])[k] == curve[k] && (submitted + [orders])[k] == submitted[k] && tr'.tripped[k] == tr.tripped[k];
    assert tr'.states[k] == tr.states[k] && tr'.states[k + 1] == tr.states[k + 1] && tr'.marked[k] == tr.marked[k];
    assert tr'.queues[k] == tr.queues[k] && tr'.queues[k + 1] == tr.queues[k + 1];
    assert tr'.routed[k] == tr.routed[k] && tr'.passes[k] == tr.passes[k];
  }

  /** The entries of bar i extend a trace of bars 0 to i - 1 to a trace of bars 0 to i. */
  lemma RecordedExtend(setup: Setup, strategies: map<string, Strategy>, cooldownBars: int, symbols: seq<string>,
                       axis: seq<int>, frames: seq<seq<Bar>>, fill: (OrderRequest, Bar) -> Option<real>,
                       breaker: (real, real) -> bool, i: nat, curve: seq<EquityRow>,
                       submitted: seq<seq<OrderRequest>>, tr: Trace, row: EquityRow, orders: seq<OrderRequest>,
                       trip: bool, state: RouteState, queue: seq<OrderRequest>, mark: Book, outcomes: seq<RouteOutcome>,
                       pass: seq<RouteState>, dailyStart: real)
    requires |symbols| == |frames| && forall j :: 0 <= j < |frames| ==> |frames[j]| == |axis|
    requires i < |axis| && Traced(setup, strategies, cooldownBars, symbols, axis, frames, fill, breaker, i, curve,
                                  submitted, tr)
    requires dailyStart == DailyReference(axis, curve, setup.initialCapital, i) && row.time == axis[i]
    requires i < setup.warmup ==>
      && row == EquityRow(axis[i], setup.initialCapital, setup.initialCapital) && !trip && orders == []
      && queue == tr.queues[i] && state == tr.states[i] && outcomes == [] && pass == []
    requires i >= setup.warmup ==>
      LiveBar(setup, strategies, cooldownBars, symbols, frames, fill, breaker, i, axis[i], dailyStart, tr.states[i],
              tr.queues[i], mark, trip, outcomes, pass, orders, state, queue, row)
    ensures Traced(setup, strategies, cooldownBars, symbols, axis, frames, fill, breaker, i + 1, curve + [row],
                   submitted + [orders], tr.Then(trip, state, queue, mark, outcomes, pass))
  {
    var tr' := tr.Then(trip, state, queue, mark, outcomes, pass);
    forall k | 0 <= k < i + 1
      ensures BarRecorded(setup, strategies, cooldownBars, symbols, axis, frames, fill, breaker, k, curve + [row],
                          submitted + [orders], tr')
    {
      if k < i {
        RecordedStable(setup, strategies, cooldownBars, symbols, axis, frames, fill, breaker, k, curve, submitted, tr,
                       row, orders, trip, state, queue, mark, outcomes, pass);
      } else {
        DailyReferenceStable(axis, curve, row, setup.initialCapital, i);
        assert (curve + [row])[i] == row && tr'.states[i] == tr.states[i] && tr'.states[i + 1] == state;
        assert tr'.queues[i] == tr.queues[i] && tr'.queues[i + 1] == queue;
        assert (submitted + [orders])[i] == orders && tr'.tripped[i] == trip && tr'.marked[i] == mark;
        assert tr'.routed[i] == outcomes && tr'.passes[i] == pass;
      }
    }
  }

  /** The state the engine's objects hold while the loop runs. */
  ghost predicate Running(setup: Setup, symbols: seq<string>, frames: seq<seq<Bar>>, router: Router, broker: Broker,
                          machine: MarketStateMachine, frameObjs: seq<BarFrame>)
    reads router, broker, broker.portfolio, router.strategies.Values, frameObjs
  {
    && router.Valid() && broker.Valid()
    && broker.commissionRate == setup.commissionRate && machine.stabilityPeriod == setup.stabilityPeriod
    && (forall s :: s in broker.portfolio.positions ==> s in symbols)
    && |frameObjs| == |frames| && (forall k :: 0 <= k < |frames| ==> frameObjs[k].bars == frames[k])
    && FramesReady(machine, frameObjs)
  }

  /** One turn of the loop after the day bookkeeping: bar i is run and its entries extend the
      trace; the routing state and the queue it leaves are the trace's last. */
  method RunStep(setup: Setup, symbols: seq<string>, axis: seq<int>, frames: seq<seq<Bar>>, router: Router,
                 broker: Broker, machine: MarketStateMachine, frameObjs: seq<BarFrame>,
                 breaker: (real, real) -> bool, fill: (OrderRequest, Bar) -> Option<real>, i: nat, dailyStart: real,
                 pending: seq<OrderRequest>, curve: seq<EquityRow>, submitted: seq<seq<OrderRequest>>, ghost tr: Trace)
    returns (row: EquityRow, orders: seq<OrderRequest>, next: seq<OrderRequest>, ghost tr': Trace)
    requires |symbols| == |frames| && forall k :: 0 <= k < |frames| ==> |frames[k]| == |axis|
    requires i < |axis| && Running(setup, symbols, frames, router, broker, machine, frameObjs)
    requires Traced(setup, router.strategies, router.cooldownBars, symbols, axis, frames, fill, breaker, i, curve,
                    submitted, tr)
    requires tr.states[i] == RouteState(router.View(), router.Views(), broker.portfolio.Snapshot())
    requires tr.queues[i] == pending && dailyStart == DailyReference(axis, curve, setup.initialCapital, i)
    modifies router, broker, broker.portfolio, router.strategies.Values, set k | 0 <= k < |frameObjs| :: frameObjs[k]
    ensures Running(setup, symbols, frames, router, broker, machine, frameObjs)
    ensures Traced(setup, router.strategies, router.cooldownBars, symbols, axis, frames, fill, breaker, i + 1,
                   curve + [row], submitted + [orders], tr')
    ensures tr'.states[i + 1] == RouteState(router.View(), router.Views(), broker.portfolio.Snapshot())
    ensures tr'.queues[i + 1] == next && tr'.states[0] == tr.states[0] && tr'.queues[0] == tr.queues[0]
  {
    var trip;
    ghost var mark, outcomes, pass;
    row, trip, orders, next, mark, outcomes, pass := RunBar(setup, router, broker, machine, symbols, frames, frameObjs,
                                                            i, axis[i], breaker, fill, dailyStart, pending,
                                                            tr.states[i]);
    ghost var state := RouteState(router.View(), router.Views(), broker.portfolio.Snapshot());
    RecordedExtend(setup, router.strategies, router.cooldownBars, symbols, axis, frames, fill, breaker, i, curve,
                   submitted, tr, row, orders, trip, state, next, mark, outcomes, pass, dailyStart);
    tr' := tr.Then(trip, state, next, mark, outcomes, pass);
  }

  /** run_backtest's main loop over the aligned frames. The orders a bar submits are queued and
      processed on the next bar after the warm-up; an order the fill rule does not price on a
      bar stays queued. The ghost trace records the run bar by bar as BarRecorded states: the
      run starts from the router as handed in, the initial capital and an empty queue. */
  method Run(setup: Setup, symbols: seq<string>, axis: seq<int>, frames: seq<seq<Bar>>, router: Router,
             breaker: (real, real) -> bool, fill: (OrderRequest, Bar) -> Option<real>)
    returns (trades: seq<TradeRecord>, curve: seq<EquityRow>, submitted: seq<seq<OrderRequest>>, ghost trace: Trace)
    requires router.Valid()
    requires |symbols| == |frames| && forall k :: 0 <= k < |frames| ==> |frames[k]| == |axis|
    modifies router, router.strategies.Values
    ensures Traced(setup, router.strategies, router.cooldownBars, symbols, axis, frames, fill, breaker, |axis|, curve,
                   submitted, trace)
    ensures trace.states[0] == RouteState(old(router.View()), old(router.Views()), Book(setup.initialCapital, map[], []))
    ensures trace.queues[0] == []
  {
    var initial := setup.initialCapital;
    var portfolio := new Portfolio(initial);
    var broker := new Broker(portfolio, setup.commissionRate);
    var machine := new MarketStateMachine(setup.stabilityPeriod);
    var frameObjs := MakeFrames(frames);

    var dailyStart := initial;
    var currentDay: Option<int> := None;
    var pending: seq<OrderRequest> := [];
    curve := [];
    submitted := [];
    assert router.View() == old(router.View()) && router.Views() == old(router.Views());
    trace := Trace([], [RouteState(router.View(), router.Views(), portfolio.Snapshot())], [[]], [], [], []);
    for i := 0 to |axis|
      invariant Traced(setup, router.strategies, router.cooldownBars, symbols, axis, frames, fill, breaker, i, curve,
                       submitted, trace)
      invariant trace.states[0] == RouteState(old(router.View()), old(router.Views()), Book(initial, map[], []))
      invariant trace.queues[0] == []
      invariant trace.states[i] == RouteState(router.View(), router.Views(), portfolio.Snapshot())
      invariant trace.queues[i] == pending
      invariant i > 0 ==> currentDay == Some(Day(axis[i - 1])) && dailyStart == DailyReference(axis, curve, initial, i - 1)
      invariant i == 0 ==> currentDay.None? && dailyStart == initial
      invariant broker.portfolio == portfolio
      invariant Running(setup, symbols, frames, router, broker, machine, frameObjs)
      invariant forall k :: 0 <= k < |frameObjs| ==> fresh(frameObjs[k])
    {
      var thisDay := Day(axis[i]);
      if currentDay != Some(thisDay) {
        if i > 0 && |curve| > 0 {
          dailyStart := curve[|curve| - 1].equity;
        }
        currentDay := Some(thisDay);
      }
      assert dailyStart == DailyReference(axis, curve, initial, i);

      var row, orders;
      row, orders, pending, trace := RunStep(setup, symbols, axis, frames, router, broker, machine, frameObjs, breaker,
                                             fill, i, dailyStart, pending, curve, submitted, trace);
      DailyReferenceStable(axis, curve, row, initial, i);
      curve := curve + [row];
      submitted := submitted + [orders];
    }
    trades := broker.trades;
  }
}
