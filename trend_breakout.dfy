/** The production breakout policy of strategies/trend_breakout.py: enter above the prior
    20-bar high, leave below the prior 10-bar low or outside TREND_UP/VOLATILE, and a health
    latch that disables the alpha for good. */
module TrendBreakout {
  import opened Wrappers
  import opened Bars
  import opened Execution
  import opened Regime
  import opened Signals
  import opened Channels
  import opened AlphaBreakout

  const BreakoutStates: set<MarketState> := {TrendUp, Volatile}

  /** The HIGH_MAX and LOW_MIN columns _ensure_indicators adds: shifted rolling extremes. */
  function HighMax(bars: seq<Bar>, i: nat, entryWindow: nat): Option<real>
    requires i < |bars| && entryWindow >= 1
  {
    DonchianHigh(Highs(bars), i, entryWindow)
  }

  function LowMin(bars: seq<Bar>, i: nat, exitWindow: nat): Option<real>
    requires i < |bars| && exitWindow >= 1
  {
    DonchianLow(Lows(bars), i, exitWindow)
  }

  /** TrendBreakoutStrategy.should_enter: a market buy when the close tops the prior high; the
      stop is the prior low unless that is missing or not below the close, then 95% of the close. */
  function BreakoutEntry(bars: seq<Bar>, i: nat, entryWindow: nat, exitWindow: nat): (r: Option<EntrySignal>)
    requires i < |bars| && entryWindow >= 1 && exitWindow >= 1
    ensures r.Some? <==> i >= entryWindow && GtOpt(bars[i].close, HighMax(bars, i, entryWindow))
    ensures r.Some? ==> r.value.action == Buy && r.value.kind == Some(Market) && r.value.price == Some(bars[i].close)
    ensures r.Some? ==> var low := LowMin(bars, i, exitWindow);
                        r.value.stopLoss == if low.Some? && low.value < bars[i].close then low.value else bars[i].close * 0.95
    ensures r.Some? && bars[i].close > 0.0 ==> r.value.stopLoss < bars[i].close
  {
    if i < entryWindow then None
    else
      var close := bars[i].close;
      var highMax := HighMax(bars, i, entryWindow);
      if highMax.Some? && close > highMax.value then
        var low := LowMin(bars, i, exitWindow);
        var stop := if low.None? || low.value >= close then close * 0.95 else low.value;
        Some(EntrySignal(Buy, stop, Some(Market), Some(close)))
      else None
  }

  /** TrendBreakoutStrategy.should_exit: below the prior low first, then the regime check. */
  function BreakoutExit(bars: seq<Bar>, i: nat, state: MarketState, exitWindow: nat): (r: Option<ExitSignal>)
    requires i < |bars| && exitWindow >= 1
    ensures LtOpt(bars[i].close, LowMin(bars, i, exitWindow)) ==> r == Some(ExitSignal(Sell, Signals.BreakoutExit))
    ensures !LtOpt(bars[i].close, LowMin(bars, i, exitWindow)) ==>
      r == if state in BreakoutStates then None else Some(ExitSignal(Sell, RegimeNotAllowed(state)))
  {
    if LtOpt(bars[i].close, LowMin(bars, i, exitWindow)) then Some(ExitSignal(Sell, Signals.BreakoutExit))
    else if state !in BreakoutStates then Some(ExitSignal(Sell, RegimeNotAllowed(state)))
    else None
  }

  datatype DeathReason = TooManyLosses | NegativeRollingMean

  /** The health_stats dict. */
  datatype HealthStats = HealthStats(
    totalTrades: int, consecutiveLosses: int, rollingPnl: seq<real>,
    isAlive: bool, deathReason: Option<DeathReason>)

  const InitialHealth := HealthStats(0, 0, [], true, None)

  function Sum(xs: seq<real>): real {
    if xs == [] then 0.0 else Sum(xs[..|xs| - 1]) + xs[|xs| - 1]
  }

  /** The last twenty recorded PnLs have a negative mean, i.e. a negative sum. */
  predicate RecentMeanNegative(pnl: seq<real>) {
    |pnl| >= 20 && Sum(pnl[|pnl| - 20..]) / 20.0 < 0.0
  }

  /** check_health: the verdict together with the stats it leaves behind. */
  datatype HealthCheck = HealthCheck(alive: bool, stats: HealthStats)

  function CheckHealth(h: HealthStats): (r: HealthCheck)
    ensures !h.isAlive ==> r == HealthCheck(false, h)
    ensures r.alive == r.stats.isAlive
    ensures r.alive <==> h.isAlive && h.consecutiveLosses <= 5 && !RecentMeanNegative(h.rollingPnl)
    ensures h.isAlive && h.consecutiveLosses > 5 ==> r.stats == h.(isAlive := false, deathReason := Some(TooManyLosses))
    ensures h.isAlive && h.consecutiveLosses <= 5 && RecentMeanNegative(h.rollingPnl) ==>
      r.stats == h.(isAlive := false, deathReason := Some(NegativeRollingMean))
    ensures r.alive ==> r.stats == h
  {
    if !h.isAlive then HealthCheck(false, h)
    else if h.consecutiveLosses > 5 then HealthCheck(false, h.(isAlive := false, deathReason := Some(TooManyLosses)))
    else if RecentMeanNegative(h.rollingPnl) then HealthCheck(false, h.(isAlive := false, deathReason := Some(NegativeRollingMean)))
    else HealthCheck(true, h)
  }

  /** The latch is one-way: once a check has failed, every later check fails and keeps the
      recorded reason, whatever the stats say afterwards. */
  lemma DeathIsPermanent(h: HealthStats, later: HealthStats)
    requires !CheckHealth(h).alive
    requires later == CheckHealth(h).stats.(totalTrades := later.totalTrades, consecutiveLosses := later.consecutiveLosses,
                                            rollingPnl := later.rollingPnl)
    ensures CheckHealth(later) == HealthCheck(false, later)
    ensures h.isAlive ==> later.deathReason.Some?
  {
  }

  /** Checking twice is the same as checking once. */
  lemma CheckHealthIdempotent(h: HealthStats)
    ensures CheckHealth(CheckHealth(h).stats) == CheckHealth(h)
  {
  }
}
