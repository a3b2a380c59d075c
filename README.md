# Regime-switching backtester: a Dafny model

This project models the simulation kernel of a regime-switching trading backtester:

- **Regime classifier.** It labels each bar TREND_UP, TREND_DOWN or SIDEWAYS from a 30-bar moving average and that average's slope. A stability filter then only accepts a new regime once it has been seen on `stability_period` consecutive bars.
- **Router.** It maps the stable regime to one strategy. On a regime change it flat-closes the symbol, resets the outgoing strategy's context for it, and holds a per-symbol cooldown.
- **Strategies.** Three policies on the shared base `on_bar` flow: trend-up and trend-down pullback entries with ATR stops and ratcheting trails, and a Bollinger-band range reversion with a loss-streak cooldown. There is also the breakout policy with its health latch.
- **Ledger.** The portfolio: cash, signed positions with average prices, equity and exposure.
- **Broker.** Immediate-fill execution: slippage, commission, rejection rules, a trade log.
- **Risk sizing.** Fixed-risk position sizing.
- **Engine.** The backtest engine's data preparation (time-axis intersection, daily fallback, reindexing) and its per-bar loop (warm-up, current prices, daily-loss circuit breaker, routing, equity curve).
- **Report.** The FIFO round-trip matching of the trade report and its metrics.
- **Research signal.** A Donchian breakout research signal.
- **Live strategy.** A separate model of the standalone live strategy file `Trading_V1_Model.py`:
  - the Beijing-time trading window and its session identifier;
  - selection of the latest ranked signal batch, with no look-ahead;
  - the rank-driven rebalance onto ten equal-weight slots.

**How the model is written.** The source's stateful objects are Dafny classes whose methods update fields under `modifies` clauses:

- the portfolio, the broker, the router, a strategy instance, the state machine's memoised column and the live strategy context.

Pure logic is functions with lemmas:

- indicators, regimes, entry and exit rules, report matching.

Every loop of the source that updates variables is a `method` with a `while` or `for` loop, proved against a specification function.

**Units.**
- Prices and quantities are `real`.
- Time stamps are integer seconds: UTC in the engine, Beijing local time in `TradingV1`.
- A pandas NaN is `Option<real>`, and every comparison with a missing value is false.
- `±inf` is the `ExtReal` datatype.

**Orders are queued and settled through a fill rule.** The engine and the strategies call `Broker.submit_order` and `Broker.process_orders`, and `core/broker.py` has neither. So in this model:

- each strategy's `on_bar` returns the order it would submit as an `OrderRequest`, and the circuit breaker returns its flatten orders the same way;
- the engine queues every order a bar submits;
- at the start of each later bar the queue is processed: a `fill` parameter says whether and at what price an order fills on the symbol's current bar, and a priced order goes through `execute_order`;
- what `fill` does not price stays queued for the next bar.

`Engine.Run` traces the run bar by bar (`Engine.BarRecorded`):

- the router, strategy and ledger state each bar finds (`Engine.RouteState`);
- the queue it settles;
- the ledger marked after the fills;
- the breaker's verdict on that marked value against the day's reference;
- the flatten orders on a trip;
- otherwise the routing pass (`Engine.RoutedUpTo`): each symbol's route call, in order, on the state the previous one left, and the orders the dispatched strategies returned;
- the equity row at the end of the bar.


## Model

| member | source | states |
|---|---|---|
| Channels.WindowMax | research/alpha_breakout.py:37-39 | rolling max: bounds every value of the window and is one of them |
| Channels.WindowMin | research/alpha_breakout.py:40 | rolling min: bounded by every value of the window and is one of them |
| Channels.DonchianHigh | research/alpha_breakout.py:37-39 | the shifted channel exists iff w earlier bars exist, and is the max of exactly bars i-w..i-1 |
| Channels.DonchianLow | research/alpha_breakout.py:40 | the shifted lower channel exists iff w earlier bars exist, and is the min of bars i-w..i-1 |
| Channels.ChannelsAreCausal | research/alpha_breakout.py:36-40 | channels at bar i depend only on bars before i |
| AlphaBreakout.Highs | research/alpha_breakout.py:38 | the high column, element by element |
| AlphaBreakout.Lows | research/alpha_breakout.py:40 | the low column, element by element |
| AlphaBreakout.SignalRaw | research/alpha_breakout.py:47-57 | 0 exactly when the close breaks the lower channel; 1 exactly when it tops the upper channel and does not break the lower; else missing; a missing channel sets no flag |
| AlphaBreakout.GenerateSignals | research/alpha_breakout.py:28-62 | one row per bar carrying it unchanged, with the entry channel high, the exit channel low, the raw signal and the forward-filled position of that bar |
| AlphaBreakout.PositionIsLatestFlag | research/alpha_breakout.py:55-60 | ffill().fillna(0): the position is the latest flagged signal at or before i, 0 with none, so always 0 or 1 |
| AlphaBreakout.SignalsAreCausal | research/alpha_breakout.py:28-62 | no look-ahead: frames agreeing up to bar i give the same signal and position at i |
| AlphaBreakout.StrategyReturn | research/alpha_breakout.py:70-75 | missing at bar 0 or without a return; whenever bar i > 0 has a return, present and equal to the position of bar i - 1 times that return |
| Regime.RawLabel | core/state.py:59-75 | TREND_UP iff close above a rising SMA_30, TREND_DOWN iff below a falling one, else SIDEWAYS (also when either is missing) |
| Regime.RawLabels | core/state.py:47-78 | one raw label per bar |
| Regime.Stable | core/state.py:80-108 | one stable state per raw label |
| Regime.ApplyStabilityFilter | core/state.py:80-108 | the filter loop computes the stable series |
| Regime.RunInvariant | core/state.py:90-106 | the loop state keeps: the candidate differs from the stable state, was seen on exactly its last count bars, and count < period |
| Regime.SwitchNeedsFullRun | core/state.py:90-106 | a change of stable state at bar k needs the new regime on the period raw bars ending at k |
| Regime.RunSwitches | core/state.py:90-106 | conversely, the same raw regime on the period bars ending at k makes it stable at k |
| Regime.RunProgress | core/state.py:90-106 | after m bars of a run of X, X is stable or the candidate seen at least m times |
| Regime.RunCurrentSeen | core/state.py:84-106 | the filter only outputs SIDEWAYS or a label it has seen |
| Regime.StatesNeverNoTrade | core/state.py:47-78 | calculate_states never yields NO_TRADE or VOLATILE |
| Regime.SameLabelKeepsState | core/state.py:93-95 | a raw label equal to the stable state keeps it |
| Regime.NoRunNoSwitch | core/state.py:90-106 | without a full run of equal labels ending at k the stable state does not move |
| Regime.ScenarioFilter | tests/test_state.py:20-73 | the tests' period-3 scenario: SIDEWAYS until bar 22, TREND_UP for bars 22-26, SIDEWAYS from bar 27 |
| Regime.MarketStateMachine.CalculateStates | core/state.py:47-78 | calculate_states is the filtered raw labels |
| Regime.MarketStateMachine.GetState | core/state.py:16-45 | get_state computes and stores the column on first use, never recomputes it, and returns its bar-i entry |
| Regime.LastAtOrBefore | core/state.py:110-124 | the index of the last stamp at or before t, -1 when there is none |
| Regime.AlignStateToLowerTf | core/state.py:110-124 | every low-timeframe stamp gets the last higher-timeframe state at or before it, or SIDEWAYS before the first |
| Regime.AlignIgnoresLaterStates | core/state.py:110-124 | states stamped after t never change the state aligned to t |
| Ledger.Fill | core/portfolio.py:13-63 | the new quantity is old + delta; an opening fill holds the weighted average; a reduce or flip keeps the average; zero quantity deletes |
| Ledger.AddingAveragesByWeight | core/portfolio.py:43-55 | adding in the same direction gives the quantity-weighted mean of old average and fill price |
| Ledger.FlipKeepsAverage | core/portfolio.py:36-62 | a flip through zero (+5 then -8) keeps the stored average price |
| Ledger.ExposureBoundsValue | core/portfolio.py:65-83 | with non-negative marks, exposure is non-negative and bounds the net marked value both ways |
| Ledger.EquityExample | core/portfolio.py:65-71 | 10000 cash plus one unit at 50000 is worth 60000; without a price the average is used |
| Ledger.Updated | core/portfolio.py:13-63 | update_position as a value: cash pays the fee and delta*price, the symbol becomes Fill of its old position, other entries unchanged, and the book stays valid |
| Ledger.UpdatedIsDetermined | core/portfolio.py:13-63 | any valid book meeting update_position's cash, position, other-entry and order effects is exactly Updated |
| Ledger.FlatEntryDropped | core/portfolio.py:58-60 | agreeing elsewhere without the symbol means the symbol was deleted |
| Ledger.HeldEntryReplaced | core/portfolio.py:51-62 | agreeing elsewhere and holding p at the symbol means the entry was set to p |
| Ledger.AppendedKeepsDistinct | core/portfolio.py:51-55 | appending a new symbol keeps the insertion order free of repeats |
| Ledger.Portfolio.constructor | core/portfolio.py:4-8 | starts with cash equal to the initial capital and no positions |
| Ledger.Portfolio.GetPosition | core/portfolio.py:10-11 | the stored entry, or flat without creating one; a stored entry is never flat |
| Ledger.Portfolio.Snapshot | core/portfolio.py:4-8 | the copy carries the fields, and is a valid book exactly when the portfolio is valid |
| Ledger.Portfolio.UpdatePosition | core/portfolio.py:13-63 | cash pays the fee and qty*price; the symbol's position is Fill of the old one; other symbols unchanged; insertion order kept, extended or pruned; the new state is Updated of the old |
| Ledger.Portfolio.UpdatePositionBody | core/portfolio.py:13-63 | the field updates of update_position: the same cash, position, other-entry and order effects |
| Ledger.Portfolio.GetEquity | core/portfolio.py:65-71 | cash plus the marked value of every position |
| Ledger.Portfolio.GetTotalValue | core/portfolio.py:73-75 | the same as get_equity |
| Ledger.Portfolio.GetTotalExposure | core/portfolio.py:77-83 | the sum of absolute marked values |
| Execution.ParseSide | core/broker.py:36-45 | exactly the four side strings parse, each to its side |
| Execution.SideName | core/broker.py:36-45 | a side's name parses back to it |
| Execution.ExecPrice | core/broker.py:26-29 | buy and cover never pay less than the price, every other side never receives more; zero slippage is the price |
| Execution.Delta | core/broker.py:36-45 | buy and cover add the quantity, sell and short subtract it |
| Execution.RejectionFor | core/broker.py:20-54 | an order fills iff the quantity is positive, the side is valid, and it is not a sell of more than the long held; a cover is never rejected |
| Execution.Broker.constructor | core/broker.py:5-8 | an empty trade log over the given portfolio and rate |
| Execution.Broker.ExecuteOrder | core/broker.py:10-80 | rejects exactly as RejectionFor with nothing changed, or fills once at the slipped price with commission, updates the position by Fill and appends one record |
| Execution.FullCloseFlattens | core/broker.py:20-63 | a full sell of a long or cover of a short is never rejected and leaves the symbol flat |
| Execution.ExecuteOn | core/broker.py:10-80 | execute_order on a copy of the ledger: rejected exactly as RejectionFor with the ledger unchanged, else one record at the slipped price with its commission, and the symbol updated by Fill, other symbols unchanged |
| Execution.FillPaysNotional | core/broker.py:65-66 | a fill costs the commission plus the signed quantity times the executed price |
| Risk.RiskManager.PositionSize | core/risk.py:5-20 | zero for a non-positive price or zero distance; else size times distance is equity times risk; never negative for non-negative inputs |
| Risk.SizeIsSymmetric | core/risk.py:16-20 | swapping entry and stop gives the same size |
| Risk.SizeExample | core/risk.py:5-20 | 10000 equity at 1% with entry 100 and stop 90 sizes 10 units |
| TrendFollowing.TrendUpEntry | strategies/trend_following.py:37-80 | a limit buy at the close iff the close is at most 0.5% above SMA_30 (no lower bound), SMA_30 is rising and SMA_10 is above it; the stop is close - mult*ATR |
| TrendFollowing.TrendUpExit | strategies/trend_following.py:82-118 | exits on a close below SMA_30, then on a regime change, then on the tighter stop; otherwise the trail moves up to close - mult*ATR exactly when that beats it, and is kept otherwise |
| TrendFollowing.TrendDownEntry | strategies/trend_following.py:137-176 | a limit short at the close iff the close is between 99% of and at a falling SMA_30; the stop is close + mult*ATR |
| TrendFollowing.TrendDownExit | strategies/trend_following.py:178-215 | covers above 1.005*SMA_30, then on a regime change, then on the stop; otherwise the trail moves down to close + mult*ATR exactly when that beats it, and is kept otherwise |
| TrendFollowing.LongTrailNeverLoosens | strategies/trend_following.py:82-118 | over any run of bars, a long's trail never moves down and its hard stop is untouched |
| TrendFollowing.ShortTrailNeverLoosens | strategies/trend_following.py:178-215 | over any run of bars, a short's trail never moves up and its hard stop is untouched |
| MeanReversion.RangeEntry | strategies/mean_reversion.py:31-72 | none during cooldown, on bar 0, with missing bands or ATR, or with ATR/close above the threshold; else buys at the lower band, shorts at the upper, stop one ATR away |
| MeanReversion.RangeExit | strategies/mean_reversion.py:74-107 | exits iff back at the mid band or beyond the stored stop; the stop reason wins; sells a long, covers otherwise |
| MeanReversion.ClosedPnl | strategies/mean_reversion.py:167-175 | long PnL is (exit - avg) * qty, short PnL is (avg - exit) * abs(qty) |
| MeanReversion.SettleClose | strategies/mean_reversion.py:177-184 | a win resets the streak; the third loss starts a 24-bar cooldown and resets; other losses count up |
| MeanReversion.SettleKeepsStreakInRange | strategies/mean_reversion.py:177-184 | the stored loss streak always stays within 0..2 |
| MeanReversion.ThreeLossesCoolDown | strategies/mean_reversion.py:33-37 | three losing closes from a clean state block entries for the 24 bars after the third |
| TrendBreakout.BreakoutEntry | strategies/trend_breakout.py:84-129 | a market buy iff the close tops the shifted entry-window high; stop is the prior low when below the close, else 95% of it, so always below a positive close |
| TrendBreakout.BreakoutExit | strategies/trend_breakout.py:131-157 | sells below the shifted exit-window low; otherwise sells iff the regime is not TREND_UP or VOLATILE |
| TrendBreakout.CheckHealth | strategies/trend_breakout.py:45-70 | alive iff not yet dead, at most 5 consecutive losses and a non-negative 20-trade mean; records the first failing reason |
| TrendBreakout.DeathIsPermanent | strategies/trend_breakout.py:45-52 | once dead, every later check fails and keeps its reason whatever the stats become |
| TrendBreakout.CheckHealthIdempotent | strategies/trend_breakout.py:45-70 | checking twice is checking once |
| Strategies.EntryFor | strategies/base.py:26-38 | every policy's entry asks to buy or short |
| Strategies.ExitFor | strategies/base.py:41-53 | only the trend policies move the context |
| Strategies.ExitOrder | strategies/base.py:72-109 | an exit order exists iff held, not just entered, a signal fires and its action closes the position; it is at market, full size, at the close |
| Strategies.EntryOrder | strategies/base.py:111-179 | an entry order needs an allowed state and the policy's signal, and is then the sized entry of that signal; it is always a buy or short of positive size |
| Strategies.SizedEntry | strategies/base.py:116-169 | an order exists iff the stop-based or 10% size on the equity at the sizing prices is positive and the gate approves; it carries that size, the signal's action, kind and price, the bar's stamp and the strategy's name |
| Strategies.SizeEntry | strategies/base.py:116-169 | reads the equity through get_equity and returns the sized entry order |
| Strategies.Strategy.constructor | strategies/base.py:12-18 | empty contexts, trade states and fresh health |
| Strategies.Strategy.GetContext | strategies/base.py:20-23 | inserts an empty context on a miss, otherwise changes nothing, and returns the stored one |
| Strategies.Strategy.ResetContext | router/router.py:81-87 | an existing context entry becomes empty; nothing else changes |
| Strategies.Strategy.GetTradeState | strategies/mean_reversion.py:20-23 | inserts the default trade state on a miss and returns the stored one |
| Strategies.Strategy.CheckHealth | strategies/trend_breakout.py:45-70 | the health field steps by CheckHealth; a dead instance stays dead |
| Strategies.Strategy.ShouldEnter | strategies/mean_reversion.py:31-35 | returns the policy's entry; only the range policy inserts a trade state |
| Strategies.Strategy.ShouldExit | strategies/trend_following.py:82-118 | returns the policy's exit; the trend policies store their moved trail |
| Strategies.Strategy.ExitStep | strategies/base.py:72-109 | the exit half returns ExitOrder and clears the context when it orders |
| Strategies.Strategy.EntryStep | strategies/base.py:111-179 | the entry half returns EntryOrder and writes the entry context exactly when it orders |
| Strategies.Strategy.BaseOnBar | strategies/base.py:55-179 | exit half when held, entry half when flat, never both; the context after each case |
| Strategies.Strategy.SettleRangeTrade | strategies/mean_reversion.py:137-184 | a call that took the position from held to flat books its PnL into the streak; otherwise unchanged |
| Strategies.Strategy.OnBar | strategies/mean_reversion.py:137-184 | the override's order is the base one; a submitted order is only queued during the call, so the bookkeeping books nothing |
| Routing.MapStateToStrategy | router/router.py:63-71 | TREND_UP, TREND_DOWN, SIDEWAYS map to their strategies; NO_TRADE and VOLATILE to none |
| Routing.ForcedCloseIsExecute | router/router.py:89-102 | on a held symbol the forced close is exactly execute_order of a sell (long) or cover (short) of the whole quantity at the bar's close, zero slippage, attributed to the router |
| Routing.ForcedCloseMeetsSpec | router/router.py:89-102 | the symbol ends flat, and a trade is booked exactly when something was held: the whole quantity at the close with commission |qty|·close·rate |
| Routing.ForcedCloseFrame | router/router.py:89-102 | no other symbol is touched or added, a flat symbol changes nothing, and the cash moves by qty·close less the commission |
| Routing.ForceClose | router/router.py:89-102 | the record returned and the ledger left are exactly ForcedClose of the ledger before, and the broker's log gains that record |
| Routing.ClosingTrades | router/router.py:94-102 | a route call logs at most one trade, and one exactly when it force-closed a held symbol |
| Routing.ResetOne | router/router.py:81-87 | only the outgoing strategy's context entry for the symbol changes, and only if it exists, to empty; trade states and health are kept |
| Routing.DispatchPicksMapped | router/router.py:47-61 | no strategy iff the state maps to none or to a missing name, not allowed iff the mapped strategy does not allow the state, else dispatched with that strategy's on_bar order; no other strategy's state changes |
| Routing.RouteCases | router/router.py:23-61 | cooldown blocks iff active and then nothing changes; a switch iff the cooldown is over and the recorded state differs, then the cooldown restarts, the state is recorded, the outgoing context reset and the symbol force-closed; otherwise the state is recorded, the expired cooldown dropped, the ledger untouched and the dispatch result taken |
| Routing.RouteOpenBranches | router/router.py:34-45 | after the cooldown gate the switch branch is taken exactly on a changed recorded state |
| Routing.RouteTouchesOnlySymbol | router/router.py:23-102 | route never opens a position, trades no other symbol, flattens on a switch, leaves the ledger alone otherwise, and on a flat symbol books nothing |
| Routing.RouteDispatchesMapped | router/router.py:47-61 | a dispatched outcome names the mapped strategy, which allows the state, and its order is that strategy's on_bar order on the state before the call |
| Routing.Router.constructor | router/router.py:10-21 | no states and no cooldowns yet |
| Routing.Router.HandleSwitch | router/router.py:73-102 | the outgoing strategy's existing context for the symbol is reset, then the position is force-closed: the ledger becomes ForcedClose's, with the commission and cash of execute_order |
| Routing.Router.ResetOutgoing | router/router.py:81-87 | only the outgoing strategy's context changes, and only an existing entry for the symbol, which becomes empty |
| Routing.Router.SwitchTo | router/router.py:37-43 | a switch starts the cooldown at i + cooldown_bars, records the new state, resets the outgoing strategy's context for the symbol and force-closes the symbol |
| Routing.Router.RecordAndDispatch | router/router.py:45-61 | records the state, leaves the cooldowns alone, and dispatches only to the mapped strategy when it allows the state |
| Routing.Router.Dispatch | router/router.py:47-61 | no strategy, not allowed, or the mapped strategy's on_bar order, exactly by those conditions |
| Routing.Router.Route | router/router.py:23-61 | cooldown blocks everything iff active and then changes no strategy; a changed state force-closes, resets the outgoing context and starts cooldown; otherwise records the state and dispatches, and a dispatched order is the mapped strategy's on_bar order (OnBarOrder) on the state before the call |
| Routing.Router.RouteOpen | router/router.py:30-61 | after the cooldown gate: a switch exactly on a changed state (cooldown, force close, outgoing reset), else record and dispatch with the book untouched |
| EngineData.BarTimes | backtest/engine.py:50-70 | the index of a frame |
| EngineData.SortedTimes | backtest/engine.py:50-70 | a frame is sorted iff its index strictly increases |
| EngineData.Insert | backtest/engine.py:64-68 | inserting keeps the frame sorted and replaces the bar of an equal stamp |
| EngineData.InsertTimes | backtest/engine.py:64-68 | the index after an insert is the old one plus the new stamp |
| EngineData.PrepareFrame | backtest/engine.py:50-70 | _prepare_dataframe: sorted, one bar per parseable stamp, each the last row with that stamp |
| EngineData.UnparseableRowsDropped | backtest/engine.py:58-62 | rows whose time cannot be parsed are dropped |
| EngineData.DuplicateKeepsLast | backtest/engine.py:64-66 | a duplicated stamp keeps the later row |
| EngineData.FilterInAll | backtest/engine.py:169-174 | the stamps of a sorted index present in every frame, in order |
| EngineData.CommonIndex | backtest/engine.py:169-174 | the intersection of all indices, strictly increasing |
| EngineData.Midnight | backtest/engine.py:182 | the start of the stamp's calendar day |
| EngineData.DailyFrame | backtest/engine.py:192-195 | per-date frames are sorted and stamped at midnight |
| EngineData.LastWithIsMidnight | backtest/engine.py:192-195 | a stamp chosen from midnight rows is a midnight |
| EngineData.Usable | backtest/engine.py:155-163 | only the normalised non-empty frames remain |
| EngineData.FramesOf | backtest/engine.py:156-157 | each symbol's frame is its prepared frame |
| EngineData.Dailies | backtest/engine.py:190-197 | each frame's per-date frame |
| EngineData.BarAt | backtest/engine.py:216 | the frame's bar at a stamp it carries |
| EngineData.Reindex | backtest/engine.py:214-219 | the aligned frame has exactly the axis stamps, each the frame's own bar |
| EngineData.AxisOf | backtest/engine.py:169-210 | the exact common stamps when there are some; else, when the bars look daily and the per-date indices share a stamp, exactly the per-date intersection over the per-date frames; else an empty axis; always increasing and in every frame |
| EngineData.AlignAll | backtest/engine.py:212-225 | one aligned frame per input frame, each of the axis length, and bar j of frame k is that frame's own bar at axis stamp j |
| EngineData.Prepare | backtest/engine.py:150-225 | empty input and no usable data are errors; otherwise Ready exactly when AxisOf gives a non-empty axis, and then the axis is that axis and the frames are AlignAll of its frames |
| EngineData.FallbackIsDates | backtest/engine.py:176-200 | a fallback axis only arises for daily-looking data and consists of midnights common to all dates |
| EngineData.ReadyOnCommonStamp | backtest/engine.py:169-225 | a stamp present in every usable frame makes preparation Ready on the exact common index |
| EngineData.FallbackWhenDaily | backtest/engine.py:176-225 | with no exact common stamp, daily-looking bars whose dates share a midnight are Ready on the per-date axis |
| EngineData.NoCommonTimeOtherwise | backtest/engine.py:176-208 | no exact common stamp and either intraday bars or no shared date: the result is NoCommonTime |
| Engine.DayStart | backtest/engine.py:243-251 | the first bar of bar i's calendar day |
| Engine.DailyReferenceIsDayOpen | backtest/engine.py:231-251 | the breaker's reference is the equity recorded just before the day's first bar, or the initial capital on the first day |
| Engine.DailyReferenceStable | backtest/engine.py:243-251 | later rows never change a reference already taken |
| Engine.FlatCurveReference | backtest/engine.py:231-251 | a flat equity curve gives a reference of the initial capital |
| Engine.PricesAt | backtest/engine.py:287-290 | the current prices are keyed by exactly the symbols |
| Engine.PriceAtLastOccurrence | backtest/engine.py:287-290 | each symbol is priced at its bar-i close; the last frame of a repeated symbol wins |
| Engine.CurrentPrices | backtest/engine.py:287-290 | the price loop computes PricesAt |
| Engine.FlattenIntents | backtest/engine.py:295-323 | the breaker orders are exactly one full closing market order per held symbol |
| Engine.BreakerOrderFlattens | backtest/engine.py:304-323 | filled, a breaker order is accepted and leaves the symbol flat |
| Engine.FlattenAll | backtest/engine.py:295-323 | the flatten loop in insertion order computes FlattenIntents |
| Engine.BarsAt | backtest/engine.py:281-283 | current_bars_data is keyed by exactly the symbols, and each bar's close is the current price |
| Engine.CurrentBars | backtest/engine.py:281-283 | the loop over the symbols computes BarsAt |
| Engine.Unpriced | backtest/engine.py:285 | exactly the queued orders the bar does not price, never more than the queue |
| Engine.SettleOne | backtest/engine.py:285 | an unpriced order stays queued with nothing else changed; a priced one goes through ExecuteOn at its fill price and the bar stamp, its record logged iff it fills, and leaves the queue |
| Engine.Settle | backtest/engine.py:285 | processing the queue in order keeps the ledger valid |
| Engine.SettleLeavesUnpriced | backtest/engine.py:285 | the orders left open are exactly the unpriced ones, in queue order |
| Engine.SettleExtendsFills | backtest/engine.py:285 | the fill log is extended, by at most one record per queued order |
| Engine.SettleUnpricedIsIdle | backtest/engine.py:285 | a bar pricing none of the queue changes neither the ledger nor the log |
| Engine.SettleHolds | backtest/engine.py:285 | fills only touch symbols with a bar |
| Engine.ProcessOrders | backtest/engine.py:285 | the broker's ledger and log become Settle's, and the orders returned are the ones left open |
| Engine.SettleAndJudge | backtest/engine.py:281-294 | the queue is settled on the bar, the prices are the bar closes, and the breaker judges the marked value against the day's reference |
| Engine.ActOnBar | backtest/engine.py:294-343 | on a trip, exactly the flatten orders of the ledger and no state change; otherwise a full routing pass from the ledger, the orders being the dispatched ones in symbol order and the state the one the last route call leaves |
| Engine.OrdersOf | backtest/engine.py:328-343 | every collected order came from a dispatched strategy |
| Engine.ClosingTradesOf | backtest/engine.py:328-343 | routing n symbols logs at most n forced-close trades |
| Engine.PassExtend | backtest/engine.py:329-343 | routing one more symbol on the state the pass reached extends the pass by that route call |
| Engine.PassIsDetermined | backtest/engine.py:329-343 | two passes from the same state agree in every outcome and state: the routing loop is a function of the state it starts from |
| Engine.PassDispatches | backtest/engine.py:329-343 | every dispatched order of a pass went to the strategy its symbol's state maps to, in a state it allows, and is that strategy's on_bar order on the ledger and strategy state the earlier symbols left |
| Engine.PassSwitches | backtest/engine.py:329-343 | each symbol of a pass is blocked iff in cooldown, switches iff its recorded state differs, and a switch restarts the cooldown, records the state, resets the outgoing context and force-closes the symbol at its close |
| Engine.StepOnlyCloses | backtest/engine.py:329-343 | one get_state then route adds no symbol to the ledger, keeps every other symbol's position, and on an empty ledger changes nothing and logs no trade |
| Engine.PassOnlyClosesTo | backtest/engine.py:329-343 | a pass adds no symbol to the ledger and leaves each symbol it has not yet reached as it was |
| Engine.PassIdleOnEmpty | backtest/engine.py:329-343 | a pass from an empty ledger leaves it unchanged and logs no trade |
| Engine.RouteAll | backtest/engine.py:328-343 | the loop over the symbols in order is a routing pass from the state before it, ending in the state after it; the orders are the dispatched ones and the log gains the forced-close trades |
| Engine.RouteNext | backtest/engine.py:329-343 | one turn of that loop extends the pass by the symbol's route call and keeps the orders and log in step |
| Engine.RouteStep | backtest/engine.py:329-343 | get_state then route for one symbol: its outcome and new state are the pass step's |
| Engine.ProcessBar | backtest/engine.py:281-353 | the ledger is settled on the bar's prices, the breaker judges the marked value against the day's reference, a trip submits FlattenIntents of the marked ledger and changes nothing else, otherwise a routing pass from the marked ledger gives the orders and the end state; the row marks the ledger at the end of the bar |
| Engine.LiveBarOnlyCloses | backtest/engine.py:281-353 | a live bar ends holding only symbols its fills left held, and a bar whose fills leave nothing held ends with the ledger as marked |
| Engine.MakeFrames | core/state.py:37-45 | one fresh frame per symbol with no state column yet |
| Engine.RunBar | backtest/engine.py:240-353 | a warm-up bar records the initial capital, submits nothing and keeps the router, the strategies, the ledger and the queue; a later bar is a LiveBar: settled queue, breaker verdict, flatten orders or routing pass, and the row |
| Engine.RecordedStable | backtest/engine.py:240-353 | recording a later bar never changes a bar already recorded |
| Engine.RecordedExtend | backtest/engine.py:240-353 | bar i's entries extend a trace of bars 0 to i - 1 to bars 0 to i |
| Engine.RunStep | backtest/engine.py:278-353 | one turn of the main loop after the day bookkeeping: bar i's entries extend the trace and its last state and queue are the engine's |
| Engine.Run | backtest/engine.py:227-397 | one row per axis stamp; starts from the router and strategies handed in, the initial capital and an empty queue; bar k's row, verdict, orders, marked ledger, routing pass and the state and queue it leaves are exactly as BarRecorded, the queue settled through the fill rule, the breaker judged against the daily reference and the symbols routed in order |
| Reporting.CloseTrade | backtest/reporting.py:135-157 | a closed slice nets gross PnL less both legs' commission, and is attributed to the opening lot's strategy |
| Reporting.MatchLots | backtest/reporting.py:131-170 | every closed slice is consistent and the stack never grows |
| Reporting.MatchConservesQty | backtest/reporting.py:131-170 | the quantity taken off the stack plus what is left over is the row's quantity |
| Reporting.MatchExhausts | backtest/reporting.py:131-159 | matching stops only when the row is used up or the stack is empty; a non-positive row matches nothing |
| Reporting.MatchIsFifo | backtest/reporting.py:131-170 | oldest first: what is left is a suffix of the stack, except that its first lot may be partly consumed |
| Reporting.MatchLotsStep | backtest/reporting.py:131-157 | one turn of the while loop closes min(remaining, lot qty) of the oldest lot and goes on with the rest against what is left of the stack |
| Reporting.OldestLotFirst | backtest/reporting.py:131-157 | the oldest lot is closed first, for min(remaining, lot qty) units, with that lot's PnL, commission and slippage |
| Reporting.ApplyRow | backtest/reporting.py:116-264 | a short opens a lot; an unknown side changes nothing; every slice it closes is consistent |
| Reporting.BookTracksNetQty | backtest/reporting.py:128-264 | each row moves longs minus shorts by exactly its signed quantity, however it splits between closing and opening |
| Reporting.Replay | backtest/reporting.py:116-264 | the slices closed over one symbol's group are consistent |
| Reporting.OtherSymbolsIgnored | backtest/reporting.py:108 | rows of another symbol change nothing in a symbol's matching |
| Reporting.Symbols | backtest/reporting.py:108 | each symbol once, exactly the symbols present |
| Reporting.ClosedOver | backtest/reporting.py:104-264 | all groups' closed slices are consistent |
| Reporting.Wins | backtest/reporting.py:297 | only the strictly positive net PnLs |
| Reporting.Losses | backtest/reporting.py:298 | only the non-positive net PnLs |
| Reporting.WinsAndLossesPartition | backtest/reporting.py:297-298 | wins and losses split the count and the sum exactly |
| Reporting.NetIsGrossLessCommission | backtest/reporting.py:278-281 | total net PnL is total gross less total commission; slippage is not subtracted |
| Reporting.Ratio | backtest/reporting.py:303 | +inf exactly when the denominator is zero |
| Reporting.TradesOf | backtest/reporting.py:325-330 | only slices of that strategy, taken from the log |
| Reporting.StrategiesOf | backtest/reporting.py:325-330 | the strategy keys, each once |
| Reporting.StatsOf | backtest/reporting.py:332-349 | a strategy's block carries its name and its trade count |
| Reporting.UnseenStrategyHasNoTrades | backtest/reporting.py:325-330 | a strategy that is not a key has no slices |
| Reporting.SeenStrategyHasTrades | backtest/reporting.py:325-330 | every key has at least one slice |
| Reporting.StatsOver | backtest/reporting.py:332-349 | one block per key |
| Reporting.CountGrowsByOne | backtest/reporting.py:325-349 | one more slice adds one to its own strategy's count and nothing to the others |
| Reporting.PerStrategyCountsSum | backtest/reporting.py:325-349 | the per-strategy counts add up to the number of closed slices |
| Reporting.WinRate | backtest/reporting.py:300 | the win rate lies between 0 and 1 |
| Reporting.ProfitFactor | backtest/reporting.py:301-303 | +inf exactly when the losses sum to zero |
| Reporting.Summarise | backtest/reporting.py:278-349 | total count, a win rate in [0, 1], net = gross - commission, per-strategy counts that sum to the total |
| Reporting.ExampleRows | tests/test_p2_orders_pnl.py:92-120 | the buy opens one lot; the sell closes it in one slice of gross 1000, commission 21, slippage 10, net 979 |
| Reporting.ExampleSymbols | tests/test_p2_orders_pnl.py:92-120 | the example log has the one symbol BTC |
| Reporting.ExampleReplay | tests/test_p2_orders_pnl.py:92-120 | matching the BTC group closes the one slice |
| Reporting.ExampleClosedTrades | tests/test_p2_orders_pnl.py:92-120 | the log closes exactly that one slice |
| Reporting.PnlBreakdownExample | tests/test_p2_orders_pnl.py:92-120 | the report's gross 1000, commission 21, slippage 10 and net 979 |
| Reporting.MatchAgainst | backtest/reporting.py:131-170 | the inner while loop computes MatchLots |
| Reporting.ProcessRow | backtest/reporting.py:116-264 | one iteration of the row loop computes ApplyRow |
| Reporting.AnalyzeSymbol | backtest/reporting.py:108-264 | the loop over a group computes Replay |
| Reporting.GroupByStrategy | backtest/reporting.py:325-330 | strat_map has exactly the keys in insertion order, each with that strategy's slices |
| Reporting.CollectClosed | backtest/reporting.py:104-262 | the loop over the symbol groups gathers the closed slices of every symbol in turn |
| Reporting.StrategyBreakdown | backtest/reporting.py:325-349 | one stats row per strategy in order of first appearance, each over that strategy's slices |
| Reporting.AnalyzeTrades | backtest/reporting.py:91-351 | computes the analysis: no rows, no closed slices, or the metrics of the closed slices |
| Reporting.SeenHaveTrades | backtest/reporting.py:332-349 | every key of strat_map has slices |
| TradingV1.InTradeWindow | Trading_V1_Model.py:18-28 | the window check fails iff a clock time cannot be built |
| TradingV1.DefaultWindow | Trading_V1_Model.py:18-28 | with the defaults the window is closed exactly from 08:00 up to 20:00 |
| TradingV1.WindowIsDaily | Trading_V1_Model.py:18-28 | the window depends only on the time of day |
| TradingV1.SameDayWindowIsAlwaysOpen | Trading_V1_Model.py:24-28 | a start not after the end makes every time pass |
| TradingV1.SessionId | Trading_V1_Model.py:31-41 | the date, or the previous date exactly before 08:00; fails iff the start is not a clock time |
| TradingV1.SessionIgnoresStart | Trading_V1_Model.py:31-41 | the start hour and minute never move the session |
| TradingV1.SessionExample | Trading_V1_Model.py:31-41 | 03:00 on 2026-02-04 belongs to the session of 2026-02-03 |
| TradingV1.SessionContainsNow | Trading_V1_Model.py:217-231 | with the default windows every time in the window lies in its own session's bounds |
| TradingV1.PrecedesTransitive | Trading_V1_Model.py:70-71 | the sort order is transitive |
| TradingV1.InsertRow | Trading_V1_Model.py:70-71 | inserting keeps the order and adds the row |
| TradingV1.SortRows | Trading_V1_Model.py:70-71 | sorted and a permutation of the rows |
| TradingV1.Candidates | Trading_V1_Model.py:233-235 | exactly the rows inside the session and not after now |
| TradingV1.LatestStamp | Trading_V1_Model.py:239 | the maximal stamp, carried by some row |
| TradingV1.AtStamp | Trading_V1_Model.py:240-242 | exactly the rows with that stamp |
| TradingV1.RankerFor | Trading_V1_Model.py:199-242 | none iff the session has no usable row; else every row of the latest stamp, each as often as in the candidates, sorted by rank |
| TradingV1.NoLookAhead | Trading_V1_Model.py:233-242 | only rows stamped at or before now are used |
| TradingV1.HeldInstruments | Trading_V1_Model.py:103-104 | exactly the instruments held with a positive amount, each once when the holdings are keyed by instrument as the platform's positions dict is, so its length is stock_now_num |
| TradingV1.Instruments | Trading_V1_Model.py:108 | the instrument column |
| TradingV1.Unique | Trading_V1_Model.py:108 | each instrument once, nothing else |
| TradingV1.PyPrefix | Trading_V1_Model.py:108 | xs[:n] with Python's negative counting; a prefix, of length min(n, len) for n >= 0 |
| TradingV1.Outside | Trading_V1_Model.py:116-117 | exactly the values not excluded |
| TradingV1.HeldRows | Trading_V1_Model.py:127-130 | exactly the ranked rows of held instruments |
| TradingV1.SlotsLeft | Trading_V1_Model.py:152 | max(stock_count - held, 1) |
| TradingV1.CashForBuy | Trading_V1_Model.py:151-156 | the smaller of the target weight's value and the equal cash share over free slots |
| TradingV1.Targets | Trading_V1_Model.py:118-119 | one order_target(x, 0) per instrument, in order |
| TradingV1.Values | Trading_V1_Model.py:158-161 | one order_value at the given value per instrument, in order |
| TradingV1.AcceptedConcat | Trading_V1_Model.py:118-123 | the accepted count of two order lists adds up |
| TradingV1.Without | Trading_V1_Model.py:144-145 | stock_now after the removals is a subset of the held instruments |
| TradingV1.WithoutDrops | Trading_V1_Model.py:144-145 | an instrument leaves stock_now only through an accepted order on it |
| TradingV1.IssuedFromWithinRoom | Trading_V1_Model.py:135-137 | the orders issued from an index never accept more than the room |
| TradingV1.IssuedFromStops | Trading_V1_Model.py:135-137 | issuing stops only at the end of the list or once the room is used up, and no sooner |
| TradingV1.IssuedWithinRoom | Trading_V1_Model.py:135-160 | the issued prefix accepts at most the room |
| TradingV1.IssuedStops | Trading_V1_Model.py:135-160 | the issued prefix is the whole list or has used up the room, and no shorter prefix has |
| TradingV1.RankedSells | Trading_V1_Model.py:131-145 | the step-2 sells: the issued prefix of full sells in rank order; with room, sell_num never passes change_num; with none, no order |
| TradingV1.Buys | Trading_V1_Model.py:147-165 | the step-3 buys: the issued prefix of order_value calls; with free slots, the held count never passes stock_count; with none, no order |
| TradingV1.RankedSellsStop | Trading_V1_Model.py:131-145 | step 2 runs while sell_num < change_num, and stops at change_num or when the ranked list ends |
| TradingV1.BuysStopAtCapacity | Trading_V1_Model.py:147-165 | step 3 runs while slots are free, and stops when they are full or buy_instruments ends |
| TradingV1.HeldSortedAreHeld | Trading_V1_Model.py:127-130 | the ranked step-2 list holds only held instruments |
| TradingV1.TargetsSell | Trading_V1_Model.py:135-138 | every order in Targets is a full sell of one of the instruments |
| TradingV1.SellOrdersNamed | Trading_V1_Model.py:114-145 | every sell is a full sell of a held instrument, and every held instrument dropped from stock_now has a full sell |
| TradingV1.BuyOrdersNamed | Trading_V1_Model.py:147-165 | every buy is an order_value of a top candidate not kept, at the cash share over the free slots |
| TradingV1.SellInTurn | Trading_V1_Model.py:131-145 | the loop issues the prefix Issued, counts the accepted ones both ways and removes them from stock_now |
| TradingV1.SellHeld | Trading_V1_Model.py:103-145 | with holdings, the orders are the unpredicted sells then StepTwo, with the counts AfterSells and KeptAfterSells |
| TradingV1.BuyStep | Trading_V1_Model.py:147-165 | after the sells, the orders are BuyOrders and the held count grows by their accepted ones |
| TradingV1.SellUnpredicted | Trading_V1_Model.py:114-123 | exactly one full sell per unpredicted held instrument, in order; sell_num counts the accepted ones |
| TradingV1.SellLowRanked | Trading_V1_Model.py:125-145 | the orders are RankedSells: full sells of held instruments in rank order up to the stop; sell_num and stock_now_num move by the accepted ones; stock_now loses exactly the accepted instruments |
| TradingV1.BuyToFill | Trading_V1_Model.py:147-165 | the orders are Buys: order_value of the cash share on buy_instruments in order up to the stop; the held count grows by the accepted ones |
| TradingV1.SellSteps | Trading_V1_Model.py:103-145 | the orders are SellOrders, sell_num counts their accepted ones, the held count and stock_now are AfterSells and KeptAfterSells; every instrument leaving stock_now was ordered out |
| TradingV1.Rebalance | Trading_V1_Model.py:101-165 | on holdings keyed by instrument (a dict on the platform), the orders are exactly RebalanceOrders (the sell orders, then the buy orders); sell_num and the held count follow their accepted orders |
| TradingV1.TradingContext.Initialize | Trading_V1_Model.py:47-73 | ten slots at weight 0.1, one ranked sell, the 20:00-08:00 window, hourly rebalance, signals sorted stably by stamp then rank |
| TradingV1.TradingContext.HandleData | Trading_V1_Model.py:171-256 | each outcome exactly by its conditions in order; a rebalance issues exactly RebalanceOrders on the latest ranked batch and records the time; every other outcome leaves it |

## Left out

- `Broker.submit_order` / `Broker.process_orders` (called by `strategies/base.py` and `backtest/engine.py`): `core/broker.py` defines neither. Orders are queued, and each bar's processing is `Engine.Settle`. Whether an order fills and at what price is the `fill` parameter of `Engine.Run`. The limit and stop fill prices that `tests/test_p2_orders_pnl.py` expects are therefore not stated.
- Engine.Settle: an order that `fill` prices but `execute_order` rejects leaves the queue. A fill is stamped with the bar's time stamp.
- Engine.Run: the returned trade log is not tied to the trace. Each bar's fills are described by `Engine.SettleExtendsFills` and `Engine.ProcessOrders`.
- `RiskManager.check_entry_risk` and `RiskManager.calculate_position_size_fixed_pct` are not in `core/risk.py`. They are the `approveEntry` and `fixedFraction` functions of the `RiskGate` parameter. The concentration and leverage limits of `tests/test_p5_risk.py` are therefore not stated.
- Strategies.Strategy.EntryStep: the entry half of `on_bar` computes `get_total_exposure` (strategies/base.py:132) and never uses it. It is a read with no effect, so the model does not make the call.
- `RiskManager.check_circuit_breaker` is missing too. It is the `breaker` parameter of `Engine.Run`.
- Engine.Run: the breaker is judged afresh on each bar from the marked value and the day's reference only. The latch that backtest/engine.py:257-264 describes (`circuit_breaker_triggered`, never reset) is not modelled, so after a day change the model's breaker can stop tripping where a latched one would keep flattening.
- EngineData.Reindex: prices are never missing (`Bar`'s open, high, low and close are plain reals), so the `ffill().bfill()` of backtest/engine.py:219 has nothing to fill. Filling NaN prices from neighbouring bars is not modelled.
- Engine.Run: the engine builds its router with `regime_map` and `log_path` keyword arguments, which `router/router.py` does not accept. The model takes an already built `Router`; `save_log` is not modelled.
- Engine.Run: the engine likewise builds its broker with slippage, random-slippage, maker-commission and impact-cost options `core/broker.py` does not take. The model's broker has only the commission rate, and `execute_order`'s slippage argument.
- The trade report reads `fill_price` and `slip` columns, while the broker's records carry `price` and no slippage. The report is modelled on its own `ReportRow` with the columns it reads.
- `_looks_daily_or_slower` (a median-gap heuristic on floating-point time deltas) is the `looksDaily` parameter of `EngineData.Prepare`.
- Time zones, `tz_convert`, `strftime` and string time stamps are not modelled. Stamps are integer seconds; calendar days are integer division by 86 400.
- `groupby(...).last()` is modelled per bar, not per column: the model keeps the last bar of a date, while pandas takes each column's last non-null value.
- The report's `groupby("symbol")` visits symbols in sorted order; the model visits them in order of first appearance. Per-symbol matching is independent of the order (`Reporting.OtherSymbolsIgnored`); only the order of the closed-trade list differs. `Reporting.PerStrategy` orders its blocks by first appearance in that list, as `strat_map` does, so with several symbols the order of `Metrics.perStrategy` can also differ from the source's `Strat_*` key order (backtest/reporting.py:108, 325-349).
- Reporting: the equity-curve metrics, the text report, the plots and all file I/O are not modelled. Nor are the benchmark, Sharpe ratios and the other floating-point statistics of `_calculate_equity_metrics`.
- Indicator computation (`core/indicators.py`: SMA, ATR, Bollinger bands, RSI) is not part of this model. Indicators are inputs carried by each bar, with NaN as `None`.
- AlphaBreakout.PctChange: a zero previous close, which gives inf or NaN in floating point, is modelled as a missing return.
- Breakout windows are required to be at least 1: pandas rejects a zero-length rolling window.
- `strategies/mean_reversion.py:108-135` follows an unconditional `return` and can never run, so it is not modelled.
- `MarketState.VOLATILE` is used by `strategies/trend_breakout.py:29` but missing from `core/state.py:6-10`. The model adds it to the enum so the breakout policy can be stated.
- Strategy subclasses are one `Strategy` class tagged by a `PolicyKind`, since the model has no inheritance.
- The live engine, live broker, data fetching, dashboard, optimisation and archive scripts are not part of this model.
- TradingV1: `to_cn` and the time-zone handling are not modelled. Stamps are already Beijing local seconds.
- TradingV1: the `date`-column fallback of `handle_data` is not modelled; the signal table has a `dt` column.
- TradingV1.SessionId returns the session's day number rather than the `YYYY-MM-DD` string. It gives `None` where `datetime.time` would raise for an out-of-range hour or minute.
- TradingV1.InTradeWindow likewise gives `None` where building the clock times raises.
- TradingV1.SortRows is a stable insertion sort. The source's `sort_values` uses quicksort, whose order between equal keys is unspecified.
- TradingV1.Rebalance: the platform's `order_target` / `order_value` return code is the `accepted` parameter (accepted when it is 0). Platform fills and cash updates are not modelled.
- `risk_management` in `Trading_V1_Model.py:79-95` does nothing (its body is `pass` after comments), so it is not modelled.
- TradingV1.Rebalance: as in the source, step-1 sells increase `sell_num` but neither decrease `stock_now_num` nor remove the instrument from `stock_now`; the contract states that behaviour.
