/** The range policy of strategies/mean_reversion.py: Bollinger-band touches for entry, the
    mid band or the stop for exit, and a loss streak that triggers a 24-bar cooldown. */
module MeanReversion {
  import opened Wrappers
  import opened Bars
  import opened Execution
  import opened Signals

  /** The per-symbol trade_state dict. */
  datatype TradeState = TradeState(consecutiveLosses: int, cooldownUntil: int)

  /** What get_trade_state inserts on first use. */
  const DefaultTradeState := TradeState(0, -1)

  /** Losses in a row that trigger the cooldown, and its length in bars. */
  const LossStreakLimit := 3
  const CooldownBars := 24

  /** atr / close > threshold in floating point. A zero close makes the ratio +inf for a
      positive ATR (always above), NaN for a zero ATR and -inf for a negative one (never above). */
  predicate AtrTooHigh(atr: real, close: real, threshold: real) {
    if close == 0.0 then atr > 0.0 else atr / close > threshold
  }

  /** RangeStrategy.should_enter, given the symbol's trade state. */
  function RangeEntry(bars: seq<Bar>, i: nat, ts: TradeState, atrThresholdPct: real): (r: Option<EntrySignal>)
    requires i < |bars|
    ensures i <= ts.cooldownUntil || i < 1 || bars[i].bbUpper.None? || bars[i].atr.None? ==> r.None?
    ensures bars[i].atr.Some? && AtrTooHigh(bars[i].atr.value, bars[i].close, atrThresholdPct) ==> r.None?
    ensures r.Some? ==> ts.cooldownUntil < i && i >= 1 && bars[i].bbUpper.Some? && bars[i].atr.Some?
                        && !AtrTooHigh(bars[i].atr.value, bars[i].close, atrThresholdPct)
    ensures r.Some? && r.value.action == Buy <==>
      r.Some? && LeOpt(bars[i].low, bars[i].bbLower)
    ensures r.Some? && r.value.action == Short <==>
      r.Some? && !LeOpt(bars[i].low, bars[i].bbLower) && GeOpt(bars[i].high, bars[i].bbUpper)
    ensures r.Some? ==> r.value.action == Buy || r.value.action == Short
    ensures r.Some? && r.value.action == Buy ==>
      r.value == EntrySignal(Buy, bars[i].close - bars[i].atr.value, None, None)
    ensures r.Some? && r.value.action == Short ==>
      r.value == EntrySignal(Short, bars[i].close + bars[i].atr.value, None, None)
    ensures (ts.cooldownUntil < i && i >= 1 && bars[i].bbUpper.Some? && bars[i].atr.Some?
             && !AtrTooHigh(bars[i].atr.value, bars[i].close, atrThresholdPct)
             && (LeOpt(bars[i].low, bars[i].bbLower) || GeOpt(bars[i].high, bars[i].bbUpper))) ==> r.Some?
  {
    if i <= ts.cooldownUntil then None
    else if i < 1 then None
    else if bars[i].bbUpper.None? || bars[i].atr.None? then None
    else
      var close := bars[i].close;
      var atr := bars[i].atr.value;
      if AtrTooHigh(atr, close, atrThresholdPct) then None
      else if LeOpt(bars[i].low, bars[i].bbLower) then Some(EntrySignal(Buy, close - 1.0 * atr, None, None))
      else if GeOpt(bars[i].high, bars[i].bbUpper) then Some(EntrySignal(Short, close + 1.0 * atr, None, None))
      else None
  }

  /** RangeStrategy.should_exit for a position of signed size qty. A return to the mid band is a
      target; a close beyond the stored stop overrides the reason; a long sells, anything else covers. */
  function RangeExit(bar: Bar, qty: real, ctx: Context): (r: Option<ExitSignal>)
    ensures var target := (qty > 0.0 && GeOpt(bar.close, bar.bbMiddle)) || (qty < 0.0 && LeOpt(bar.close, bar.bbMiddle));
            var stopped := ctx.stopLoss.Some? &&
                           ((qty > 0.0 && bar.close < ctx.stopLoss.value) || (qty < 0.0 && bar.close > ctx.stopLoss.value));
            && (r.Some? <==> target || stopped)
            && (stopped ==> r.Some? && r.value.reason == StopLossHit)
            && (target && !stopped ==> r.Some? && r.value.reason == TargetHitMidBand)
    ensures r.Some? ==> r.value.action == (if qty > 0.0 then Sell else Cover)
  {
    var target := (qty > 0.0 && GeOpt(bar.close, bar.bbMiddle)) || (qty < 0.0 && LeOpt(bar.close, bar.bbMiddle));
    var reason: Option<Reason> := if target then Some(TargetHitMidBand) else None;
    var reason :=
      if ctx.stopLoss.Some? && ((qty > 0.0 && bar.close < ctx.stopLoss.value) || (qty < 0.0 && bar.close > ctx.stopLoss.value))
      then Some(StopLossHit) else reason;
    if reason.Some? then Some(ExitSignal(if qty > 0.0 then Sell else Cover, reason.value))
    else None
  }

  /** The PnL the range on_bar books for a closed position: avg_price against the bar close. */
  function ClosedPnl(qtyBefore: real, avgPrice: real, exitPrice: real): (pnl: real)
    ensures qtyBefore > 0.0 ==> pnl == (exitPrice - avgPrice) * qtyBefore
    ensures qtyBefore < 0.0 ==> pnl == (avgPrice - exitPrice) * -qtyBefore
  {
    if qtyBefore > 0.0 then (exitPrice - avgPrice) * Abs(qtyBefore)
    else (avgPrice - exitPrice) * Abs(qtyBefore)
  }

  /** The loss-streak update after a close at bar i with the given PnL. */
  function SettleClose(ts: TradeState, pnl: real, i: int): (r: TradeState)
    ensures pnl >= 0.0 ==> r == ts.(consecutiveLosses := 0)
    ensures pnl < 0.0 && ts.consecutiveLosses + 1 >= LossStreakLimit ==> r == TradeState(0, i + CooldownBars)
    ensures pnl < 0.0 && ts.consecutiveLosses + 1 < LossStreakLimit ==> r == ts.(consecutiveLosses := ts.consecutiveLosses + 1)
  {
    if pnl < 0.0 then
      var losses := ts.consecutiveLosses + 1;
      if losses >= LossStreakLimit then TradeState(0, i + CooldownBars)
      else ts.(consecutiveLosses := losses)
    else ts.(consecutiveLosses := 0)
  }

  /** The stored streak always stays within 0 .. 2. */
  ghost predicate StreakInRange(ts: TradeState) {
    0 <= ts.consecutiveLosses < LossStreakLimit
  }

  lemma SettleKeepsStreakInRange(ts: TradeState, pnl: real, i: int)
    requires StreakInRange(ts)
    ensures StreakInRange(SettleClose(ts, pnl, i))
  {
  }

  /** Three losing closes in a row from a clean slate block entries for the 24 bars after the
      third one. */
  lemma ThreeLossesCoolDown(bars: seq<Bar>, b1: int, b2: int, b3: int, j: nat, atrThresholdPct: real)
    requires j < |bars| && b3 < j <= b3 + CooldownBars
    ensures var ts := SettleClose(SettleClose(SettleClose(DefaultTradeState, -1.0, b1), -1.0, b2), -1.0, b3);
            ts == TradeState(0, b3 + 24) && RangeEntry(bars, j, ts, atrThresholdPct).None?
  {
  }
}
