/** The trend policies of strategies/trend_following.py: pull-back entries against SMA_30,
    exits checked in a fixed order, and a trailing stop that only tightens. */
module TrendFollowing {
  import opened Wrappers
  import opened Bars
  import opened Execution
  import opened Regime
  import opened Signals

  /** A context value read with a default of -inf (a long's stop and trail). */
  function OrNegInf(x: Option<real>): ExtReal {
    if x.Some? then Finite(x.value) else NegInf
  }

  /** A context value read with a default of +inf (a short's stop and trail). */
  function OrPosInf(x: Option<real>): ExtReal {
    if x.Some? then Finite(x.value) else PosInf
  }

  /** The trailing stop of a long: ctx.get("trailing_stop", -inf). */
  function LongTrail(ctx: Context): ExtReal {
    ctx.trailingStop.GetOr(NegInf)
  }

  /** The trailing stop of a short: ctx.get("trailing_stop", +inf). */
  function ShortTrail(ctx: Context): ExtReal {
    ctx.trailingStop.GetOr(PosInf)
  }

  /** The tighter of a long's hard stop and trailing stop. */
  function LongEffectiveStop(ctx: Context): ExtReal {
    Max(OrNegInf(ctx.stopLoss), LongTrail(ctx))
  }

  /** The tighter of a short's hard stop and trailing stop. */
  function ShortEffectiveStop(ctx: Context): ExtReal {
    Min(OrPosInf(ctx.stopLoss), ShortTrail(ctx))
  }

  /** TrendUpStrategy.should_enter: a limit buy at the close when the close is at most 0.5%
      above SMA_30 (there is no lower bound), SMA_30 is rising and SMA_10 is above it. */
  function TrendUpEntry(bars: seq<Bar>, i: nat, atrMultiplier: real): (r: Option<EntrySignal>)
    requires i < |bars|
    ensures i < 1 || bars[i].sma.None? || bars[i].atr.None? ==> r.None?
    ensures r.Some? <==>
      && i >= 1 && bars[i].sma.Some? && bars[i].atr.Some?
      && bars[i].close <= bars[i].sma.value * 1.005
      && Slope(bars, i).Some? && Slope(bars, i).value > 0.0
      && bars[i].smaFast.Some? && bars[i].smaFast.value > bars[i].sma.value
    ensures r.Some? ==> r.value == EntrySignal(Buy, bars[i].close - atrMultiplier * bars[i].atr.value,
                                               Some(Limit), Some(bars[i].close))
  {
    if i < 1 || bars[i].sma.None? || bars[i].atr.None? then None
    else
      var close := bars[i].close;
      var sma := bars[i].sma.value;
      var slope := Slope(bars, i);
      var pullback := close <= sma * 1.005;
      var rising := slope.Some? && slope.value > 0.0;
      var aligned := bars[i].smaFast.Some? && bars[i].smaFast.value > sma;
      if pullback && rising && aligned then
        Some(EntrySignal(Buy, close - atrMultiplier * bars[i].atr.value, Some(Limit), Some(close)))
      else None
  }

  /** TrendUpStrategy.should_exit. The checks run in order: close below SMA_30, a state other
      than TREND_UP, then close below the tighter of stop and trail. Only when none fires does
      the trail move up to close - mult * ATR, exactly when that beats the current trail. */
  function TrendUpExit(bar: Bar, state: MarketState, ctx: Context, atrMultiplier: real): (d: ExitDecision)
    ensures LtOpt(bar.close, bar.sma) ==>
      d == ExitDecision(Some(ExitSignal(Sell, CloseBelowSma)), ctx)
    ensures !LtOpt(bar.close, bar.sma) && state != TrendUp ==>
      d == ExitDecision(Some(ExitSignal(Sell, StateChanged)), ctx)
    ensures !LtOpt(bar.close, bar.sma) && state == TrendUp ==>
      (d.signal.Some? <==> Less(Finite(bar.close), LongEffectiveStop(ctx)))
    ensures d.signal.Some? ==> d.context == ctx && d.signal.value.action == Sell
    ensures d.signal.None? ==> LessEq(LongTrail(ctx), LongTrail(d.context))
    ensures d.context == ctx || (d.context == ctx.(trailingStop := d.context.trailingStop)
                                 && bar.atr.Some? && d.context.trailingStop == Some(Finite(bar.close - atrMultiplier * bar.atr.value)))
    ensures d.signal.None? && bar.atr.Some? && Less(LongTrail(ctx), Finite(bar.close - atrMultiplier * bar.atr.value)) ==>
      d.context == ctx.(trailingStop := Some(Finite(bar.close - atrMultiplier * bar.atr.value)))
    ensures d.signal.None? && !(bar.atr.Some? && Less(LongTrail(ctx), Finite(bar.close - atrMultiplier * bar.atr.value))) ==>
      d.context == ctx
  {
    if LtOpt(bar.close, bar.sma) then ExitDecision(Some(ExitSignal(Sell, CloseBelowSma)), ctx)
    else if state != TrendUp then ExitDecision(Some(ExitSignal(Sell, StateChanged)), ctx)
    else if Less(Finite(bar.close), LongEffectiveStop(ctx)) then ExitDecision(Some(ExitSignal(Sell, StopOrTrailHit)), ctx)
    else if bar.atr.Some? && Less(LongTrail(ctx), Finite(bar.close - atrMultiplier * bar.atr.value)) then
      ExitDecision(None, ctx.(trailingStop := Some(Finite(bar.close - atrMultiplier * bar.atr.value))))
    else ExitDecision(None, ctx)
  }

  /** TrendDownStrategy.should_enter: a limit short at the close when the close has rallied to
      between 99% of SMA_30 and SMA_30 while SMA_30 is falling. */
  function TrendDownEntry(bars: seq<Bar>, i: nat, atrMultiplier: real): (r: Option<EntrySignal>)
    requires i < |bars|
    ensures i < 1 || bars[i].sma.None? || bars[i].atr.None? ==> r.None?
    ensures r.Some? <==>
      && i >= 1 && bars[i].sma.Some? && bars[i].atr.Some?
      && bars[i].sma.value * 0.99 <= bars[i].close <= bars[i].sma.value
      && Slope(bars, i).Some? && Slope(bars, i).value < 0.0
    ensures r.Some? ==> r.value == EntrySignal(Short, bars[i].close + atrMultiplier * bars[i].atr.value,
                                               Some(Limit), Some(bars[i].close))
  {
    if i < 1 || bars[i].sma.None? || bars[i].atr.None? then None
    else
      var close := bars[i].close;
      var sma := bars[i].sma.value;
      var slope := Slope(bars, i);
      var rally := close >= sma * 0.99 && close <= sma;
      var falling := slope.Some? && slope.value < 0.0;
      if rally && falling then
        Some(EntrySignal(Short, close + atrMultiplier * bars[i].atr.value, Some(Limit), Some(close)))
      else None
  }

  /** TrendDownStrategy.should_exit, the mirror image: close above 1.005 * SMA_30, a state other
      than TREND_DOWN, then close above the tighter of stop and trail; otherwise the trail moves
      down to close + mult * ATR exactly when that beats the current trail. */
  function TrendDownExit(bar: Bar, state: MarketState, ctx: Context, atrMultiplier: real): (d: ExitDecision)
    ensures bar.sma.Some? && bar.close > bar.sma.value * 1.005 ==>
      d == ExitDecision(Some(ExitSignal(Cover, CloseAboveSma)), ctx)
    ensures !(bar.sma.Some? && bar.close > bar.sma.value * 1.005) && state != TrendDown ==>
      d == ExitDecision(Some(ExitSignal(Cover, StateChanged)), ctx)
    ensures !(bar.sma.Some? && bar.close > bar.sma.value * 1.005) && state == TrendDown ==>
      (d.signal.Some? <==> Less(ShortEffectiveStop(ctx), Finite(bar.close)))
    ensures d.signal.Some? ==> d.context == ctx && d.signal.value.action == Cover
    ensures d.signal.None? ==> LessEq(ShortTrail(d.context), ShortTrail(ctx))
    ensures d.context == ctx || (d.context == ctx.(trailingStop := d.context.trailingStop)
                                 && bar.atr.Some? && d.context.trailingStop == Some(Finite(bar.close + atrMultiplier * bar.atr.value)))
    ensures d.signal.None? && bar.atr.Some? && Less(Finite(bar.close + atrMultiplier * bar.atr.value), ShortTrail(ctx)) ==>
      d.context == ctx.(trailingStop := Some(Finite(bar.close + atrMultiplier * bar.atr.value)))
    ensures d.signal.None? && !(bar.atr.Some? && Less(Finite(bar.close + atrMultiplier * bar.atr.value), ShortTrail(ctx))) ==>
      d.context == ctx
  {
    if bar.sma.Some? && bar.close > bar.sma.value * 1.005 then ExitDecision(Some(ExitSignal(Cover, CloseAboveSma)), ctx)
    else if state != TrendDown then ExitDecision(Some(ExitSignal(Cover, StateChanged)), ctx)
    else if Less(ShortEffectiveStop(ctx), Finite(bar.close)) then ExitDecision(Some(ExitSignal(Cover, StopOrTrailHit)), ctx)
    else if bar.atr.Some? && Less(Finite(bar.close + atrMultiplier * bar.atr.value), ShortTrail(ctx)) then
      ExitDecision(None, ctx.(trailingStop := Some(Finite(bar.close + atrMultiplier * bar.atr.value))))
    else ExitDecision(None, ctx)
  }

  /** The trail of a long never loosens over any run of bars: replaying TrendUpExit and keeping
      its context, the final trail is at least the first one. */
  function ReplayUp(bars: seq<Bar>, state: MarketState, ctx: Context, atrMultiplier: real): Context {
    if bars == [] then ctx
    else TrendUpExit(bars[|bars| - 1], state, ReplayUp(bars[..|bars| - 1], state, ctx, atrMultiplier), atrMultiplier).context
  }

  lemma {:induction false} LongTrailNeverLoosens(bars: seq<Bar>, state: MarketState, ctx: Context, atrMultiplier: real)
    ensures LessEq(LongTrail(ctx), LongTrail(ReplayUp(bars, state, ctx, atrMultiplier)))
    ensures ReplayUp(bars, state, ctx, atrMultiplier).stopLoss == ctx.stopLoss
  {
    if bars != [] {
      var prev := ReplayUp(bars[..|bars| - 1], state, ctx, atrMultiplier);
      LongTrailNeverLoosens(bars[..|bars| - 1], state, ctx, atrMultiplier);
      LessEqTransitive(LongTrail(ctx), LongTrail(prev), LongTrail(TrendUpExit(bars[|bars| - 1], state, prev, atrMultiplier).context));
    }
  }

  /** The same for a short: replaying TrendDownExit never raises the trail. */
  function ReplayDown(bars: seq<Bar>, state: MarketState, ctx: Context, atrMultiplier: real): Context {
    if bars == [] then ctx
    else TrendDownExit(bars[|bars| - 1], state, ReplayDown(bars[..|bars| - 1], state, ctx, atrMultiplier), atrMultiplier).context
  }

  lemma {:induction false} ShortTrailNeverLoosens(bars: seq<Bar>, state: MarketState, ctx: Context, atrMultiplier: real)
    ensures LessEq(ShortTrail(ReplayDown(bars, state, ctx, atrMultiplier)), ShortTrail(ctx))
    ensures ReplayDown(bars, state, ctx, atrMultiplier).stopLoss == ctx.stopLoss
  {
    if bars != [] {
      var prev := ReplayDown(bars[..|bars| - 1], state, ctx, atrMultiplier);
      ShortTrailNeverLoosens(bars[..|bars| - 1], state, ctx, atrMultiplier);
      LessEqTransitive(ShortTrail(TrendDownExit(bars[|bars| - 1], state, prev, atrMultiplier).context), ShortTrail(prev), ShortTrail(ctx));
    }
  }
}
