/** The regime classifier (core/state.py): a raw label per bar from close and SMA_30,
    a hysteresis filter over the raw labels, the memoised state column, and the
    alignment of a higher-timeframe state series to a lower-timeframe index. */
module Regime {
  import opened Wrappers
  import opened Bars

  /** VOLATILE is not part of the enum in core/state.py; strategies/trend_breakout.py
      names it, so it is added here. */
  datatype MarketState = TrendUp | TrendDown | Sideways | NoTrade | Volatile

  /** SMA_30.diff(): missing at bar 0 and wherever either average is missing. */
  function Slope(bars: seq<Bar>, i: nat): Option<real>
    requires i < |bars|
  {
    if i == 0 || bars[i].sma.None? || bars[i - 1].sma.None? then None
    else Some(bars[i].sma.value - bars[i - 1].sma.value)
  }

  /** The raw rule: up above a rising average, down below a falling one, sideways otherwise
      (including wherever the average or its slope is missing). */
  function RawLabel(bars: seq<Bar>, i: nat): (s: MarketState)
    requires i < |bars|
    ensures s == TrendUp <==>
      GtOpt(bars[i].close, bars[i].sma) && Slope(bars, i).Some? && Slope(bars, i).value > 0.0
    ensures s == TrendDown <==>
      LtOpt(bars[i].close, bars[i].sma) && Slope(bars, i).Some? && Slope(bars, i).value < 0.0
    ensures s == TrendUp || s == TrendDown || s == Sideways
  {
    var slope := Slope(bars, i);
    if GtOpt(bars[i].close, bars[i].sma) && slope.Some? && slope.value > 0.0 then TrendUp
    else if LtOpt(bars[i].close, bars[i].sma) && slope.Some? && slope.value < 0.0 then TrendDown
    else Sideways
  }

  function RawLabels(bars: seq<Bar>): (r: seq<MarketState>)
    ensures |r| == |bars|
    ensures forall i :: 0 <= i < |bars| ==> r[i] == RawLabel(bars, i)
  {
    seq(|bars|, i requires 0 <= i < |bars| => RawLabel(bars, i))
  }

  // ---------------------------------------------------------------------------
  // The stability filter
  // ---------------------------------------------------------------------------

  /** The loop variables of _apply_stability_filter. */
  datatype FilterState = FilterState(current: MarketState, candidate: Option<MarketState>, count: int)

  const InitialFilter := FilterState(Sideways, None, 0)

  /** One iteration of the filter loop on raw label s. */
  function Step(f: FilterState, s: MarketState, period: int): FilterState {
    if s == f.current then FilterState(f.current, None, 0)
    else
      var count := if Some(s) == f.candidate then f.count + 1 else 1;
      if count >= period then FilterState(s, None, 0)
      else FilterState(f.current, Some(s), count)
  }

  /** The loop state after the whole of raw. */
  function Run(raw: seq<MarketState>, period: int): FilterState {
    if raw == [] then InitialFilter
    else Step(Run(raw[..|raw| - 1], period), raw[|raw| - 1], period)
  }

  /** The stable series: the state current after each bar. */
  function Stable(raw: seq<MarketState>, period: int): (r: seq<MarketState>)
    ensures |r| == |raw|
  {
    seq(|raw|, k requires 0 <= k < |raw| => Run(raw[..k + 1], period).current)
  }

  /** The stable state before bar k: SIDEWAYS before the first bar. */
  function Before(raw: seq<MarketState>, period: int, k: nat): MarketState
    requires k <= |raw|
  {
    if k == 0 then Sideways else Stable(raw, period)[k - 1]
  }

  /** _apply_stability_filter: the filter loop, appending the current stable state per bar. */
  method ApplyStabilityFilter(raw: seq<MarketState>, period: int) returns (stable: seq<MarketState>)
    ensures stable == Stable(raw, period)
  {
    if |raw| == 0 {
      return raw;
    }
    stable := [];
    var currentStable := Sideways;
    var consecutiveCount := 0;
    var candidateState: Option<MarketState> := None;
    var i := 0;
    while i < |raw|
      invariant 0 <= i <= |raw|
      invariant FilterState(currentStable, candidateState, consecutiveCount) == Run(raw[..i], period)
      invariant |stable| == i
      invariant forall k :: 0 <= k < i ==> stable[k] == Run(raw[..k + 1], period).current
    {
      var state := raw[i];
      assert raw[..i + 1][..i] == raw[..i];
      if state == currentStable {
        consecutiveCount := 0;
        candidateState := None;
      } else {
        if Some(state) == candidateState {
          consecutiveCount := consecutiveCount + 1;
        } else {
          candidateState := Some(state);
          consecutiveCount := 1;
        }
        if consecutiveCount >= period {
          currentStable := candidateState.value;
          consecutiveCount := 0;
          candidateState := None;
        }
      }
      stable := stable + [currentStable];
      i := i + 1;
    }
  }

  /** What the loop variables always satisfy: a candidate differs from the stable state,
      has been seen on exactly the last `count` bars, and has not yet reached the period. */
  ghost predicate FilterInvariant(raw: seq<MarketState>, period: int, f: FilterState) {
    && (f.candidate.None? <==> f.count == 0)
    && (f.candidate.Some? ==>
          && f.candidate.value != f.current
          && 1 <= f.count <= |raw|
          && f.count < period
          && forall j :: |raw| - f.count <= j < |raw| ==> raw[j] == f.candidate.value)
  }

  lemma {:induction false} RunInvariant(raw: seq<MarketState>, period: int)
    ensures FilterInvariant(raw, period, Run(raw, period))
  {
    if raw != [] {
      var init := raw[..|raw| - 1];
      RunInvariant(init, period);
      var f := Run(init, period);
      var s := raw[|raw| - 1];
      var g := Step(f, s, period);
      if g.candidate.Some? {
        assert s != f.current;
        if Some(s) == f.candidate {
          forall j | |raw| - g.count <= j < |raw| ensures raw[j] == s {
            if j < |raw| - 1 { assert raw[j] == init[j]; }
          }
        }
      }
    }
  }

  /** The stable state only changes at bar k to a regime that the raw labels show on
      bar k and on the stability_period - 1 bars before it. */
  lemma SwitchNeedsFullRun(raw: seq<MarketState>, period: int, k: nat)
    requires period >= 1 && k < |raw|
    requires Stable(raw, period)[k] != Before(raw, period, k)
    ensures period <= k + 1
    ensures forall j :: k + 1 - period <= j <= k ==> raw[j] == Stable(raw, period)[k]
  {
    var pre := raw[..k];
    assert raw[..k + 1][..k] == pre;
    RunInvariant(pre, period);
    var f := Run(pre, period);
    assert f.current == Before(raw, period, k) by {
      if k > 0 { assert raw[..k - 1 + 1] == pre; }
    }
    var s := raw[k];
    assert Stable(raw, period)[k] == Step(f, s, period).current;
    forall j | k + 1 - period <= j <= k ensures raw[j] == s {
      if j < k { assert raw[j] == pre[j]; }
    }
  }

  /** Helper for RunSwitches: after m bars of a run of X, X is stable or is the candidate seen m times. */
  lemma {:induction false} RunProgress(raw: seq<MarketState>, period: int, start: nat, m: nat, x: MarketState)
    requires start + m <= |raw|
    requires forall j :: start <= j < start + m ==> raw[j] == x
    ensures var f := Run(raw[..start + m], period);
            m == 0 || f.current == x || (f.candidate == Some(x) && f.count >= m)
  {
    if m > 0 {
      RunProgress(raw, period, start, m - 1, x);
      var pre := raw[..start + m - 1];
      assert raw[..start + m][..start + m - 1] == pre;
      assert raw[..start + m][start + m - 1] == x;
      RunInvariant(pre, period);
      assert Run(raw[..start + m], period) == Step(Run(pre, period), x, period);
    }
  }

  /** A regime seen on stability_period consecutive raw bars ending at k is stable at k. */
  lemma RunSwitches(raw: seq<MarketState>, period: int, k: nat, x: MarketState)
    requires period >= 1 && period <= k + 1 && k < |raw|
    requires forall j :: k + 1 - period <= j <= k ==> raw[j] == x
    ensures Stable(raw, period)[k] == x
  {
    RunProgress(raw, period, k + 1 - period, period, x);
    RunInvariant(raw[..k + 1], period);
  }

  /** The filter only ever outputs SIDEWAYS or a label it has seen. */
  lemma {:induction false} RunCurrentSeen(raw: seq<MarketState>, period: int)
    ensures Run(raw, period).current == Sideways || Run(raw, period).current in raw
  {
    if raw != [] {
      var init := raw[..|raw| - 1];
      RunCurrentSeen(init, period);
      RunInvariant(init, period);
      var f := Run(init, period);
      if f.current in init {
        var j :| 0 <= j < |init| && init[j] == f.current;
        assert raw[j] == f.current;
      }
    }
  }

  /** calculate_states never yields NO_TRADE (nor VOLATILE). */
  lemma StatesNeverNoTrade(bars: seq<Bar>, period: int, k: nat)
    requires k < |bars|
    ensures var s := Stable(RawLabels(bars), period)[k];
            s == TrendUp || s == TrendDown || s == Sideways
  {
    var raw := RawLabels(bars);
    RunCurrentSeen(raw[..k + 1], period);
  }

  /** A bar whose raw label is already the stable state keeps that state. */
  lemma SameLabelKeepsState(raw: seq<MarketState>, period: int, k: nat)
    requires k < |raw| && raw[k] == Before(raw, period, k)
    ensures Stable(raw, period)[k] == Before(raw, period, k)
  {
    var pre := raw[..k];
    assert raw[..k + 1][..k] == pre;
    assert Run(pre, period).current == Before(raw, period, k) by {
      if k > 0 { assert raw[..k - 1 + 1] == pre; }
    }
    assert Stable(raw, period)[k] == Step(Run(pre, period), raw[k], period).current;
  }

  /** Without stability_period equal raw labels ending at k the stable state keeps its value:
      either k is too early, or some raw label inside the window differs from raw[k]. */
  lemma NoRunNoSwitch(raw: seq<MarketState>, period: int, k: nat, j: int)
    requires period >= 1 && k < |raw|
    requires k + 1 < period || (k + 1 - period <= j <= k && raw[j] != raw[k])
    ensures Stable(raw, period)[k] == Before(raw, period, k)
  {
    if Stable(raw, period)[k] != Before(raw, period, k) {
      SwitchNeedsFullRun(raw, period, k);
      assert false;
    }
  }

  /** The filter scenario of the tests with period 3 (BULL_TREND read as TREND_UP):
      SIDEWAYS x10, TREND_UP x2, SIDEWAYS x8, TREND_UP x5, SIDEWAYS x5. */
  function Scenario(): seq<MarketState> {
    seq(30, i => if 10 <= i < 12 || 20 <= i < 25 then TrendUp else Sideways)
  }

  lemma ScenarioFilter()
    ensures forall k :: 0 <= k < 22 ==> Stable(Scenario(), 3)[k] == Sideways
    ensures forall k :: 22 <= k < 27 ==> Stable(Scenario(), 3)[k] == TrendUp
    ensures forall k :: 27 <= k < 30 ==> Stable(Scenario(), 3)[k] == Sideways
  {
    var raw := Scenario();
    var st := Stable(raw, 3);
    var k := 0;
    while k < 30
      invariant 0 <= k <= 30
      invariant forall j :: 0 <= j < k ==>
        st[j] == if 22 <= j < 27 then TrendUp else Sideways
    {
      var expected := if 22 <= k < 27 then TrendUp else Sideways;
      if k in {22, 23, 24, 27, 28, 29} {
        RunSwitches(raw, 3, k, expected);
      } else if raw[k] == Before(raw, 3, k) {
        SameLabelKeepsState(raw, 3, k);
      } else {
        var j := if k >= 2 && raw[k - 2] != raw[k] then k - 2 else k - 1;
        NoRunNoSwitch(raw, 3, k, j);
      }
      k := k + 1;
    }
  }

  // ---------------------------------------------------------------------------
  // The memoised state column and get_state
  // ---------------------------------------------------------------------------

  /** A symbol's frame, with the market_state column that get_state writes once. */
  class BarFrame {
    const bars: seq<Bar>
    var marketState: Option<seq<MarketState>>

    constructor (bars: seq<Bar>)
      ensures this.bars == bars && marketState == None
    {
      this.bars := bars;
      marketState := None;
    }
  }

  class MarketStateMachine {
    const stabilityPeriod: int

    constructor (stabilityPeriod: int)
      ensures this.stabilityPeriod == stabilityPeriod
    {
      this.stabilityPeriod := stabilityPeriod;
    }

    /** The column get_state stores: the filtered raw labels of the frame. */
    ghost predicate Memoised(frame: BarFrame)
      reads frame
    {
      frame.marketState.Some? ==> frame.marketState.value == Stable(RawLabels(frame.bars), stabilityPeriod)
    }

    /** calculate_states: the raw labels through the stability filter. */
    method CalculateStates(bars: seq<Bar>) returns (states: seq<MarketState>)
      ensures states == Stable(RawLabels(bars), stabilityPeriod)
    {
      var raw := RawLabels(bars);
      states := ApplyStabilityFilter(raw, stabilityPeriod);
    }

    /** get_state: compute and store the whole column on first use, then read it. */
    method GetState(frame: BarFrame, i: nat) returns (s: MarketState)
      requires i < |frame.bars|
      requires Memoised(frame)
      modifies frame
      ensures frame.marketState == Some(Stable(RawLabels(frame.bars), stabilityPeriod))
      ensures old(frame.marketState).Some? ==> frame.marketState == old(frame.marketState)
      ensures s == Stable(RawLabels(frame.bars), stabilityPeriod)[i]
    {
      if frame.marketState.Some? {
        return frame.marketState.value[i];
      }
      var states := CalculateStates(frame.bars);
      frame.marketState := Some(states);
      s := states[i];
    }
  }

  // ---------------------------------------------------------------------------
  // align_state_to_lower_tf
  // ---------------------------------------------------------------------------

  /** One entry of a higher-timeframe state series. */
  datatype Stamped = Stamped(time: int, state: MarketState)

  /** The stamps of the series strictly increase. */
  predicate StampsIncrease(high: seq<Stamped>) {
    forall i, j :: 0 <= i < j < |high| ==> high[i].time < high[j].time
  }

  /** Index of the last entry at or before t, or -1 when there is none. */
  function LastAtOrBefore(high: seq<Stamped>, t: int): (k: int)
    ensures -1 <= k < |high|
    ensures k >= 0 ==> high[k].time <= t
    ensures forall j :: k < j < |high| ==> high[j].time > t
  {
    if high == [] then -1
    else if high[|high| - 1].time <= t then |high| - 1
    else LastAtOrBefore(high[..|high| - 1], t)
  }

  /** reindex(method='ffill') then fillna(SIDEWAYS) at one low-timeframe time stamp. */
  function AlignedState(high: seq<Stamped>, t: int): MarketState {
    var k := LastAtOrBefore(high, t);
    if k < 0 then Sideways else high[k].state
  }

  /** align_state_to_lower_tf. pandas refuses to forward-fill from an unsorted or duplicated index. */
  function AlignStateToLowerTf(high: seq<Stamped>, lowIndex: seq<int>): (r: seq<MarketState>)
    requires StampsIncrease(high)
    ensures |r| == |lowIndex|
    ensures forall j :: 0 <= j < |lowIndex| ==>
      (r[j] == Sideways && forall k :: 0 <= k < |high| ==> high[k].time > lowIndex[j])
      || exists k :: 0 <= k < |high| && high[k].time <= lowIndex[j] && r[j] == high[k].state
                     && forall k' :: k < k' < |high| ==> high[k'].time > lowIndex[j]
  {
    seq(|lowIndex|, j requires 0 <= j < |lowIndex| => AlignedState(high, lowIndex[j]))
  }

  /** No lookahead: states stamped after t never change the state aligned to t. */
  lemma {:induction false} AlignIgnoresLaterStates(high: seq<Stamped>, later: seq<Stamped>, t: int)
    requires forall k :: 0 <= k < |later| ==> later[k].time > t
    ensures AlignedState(high + later, t) == AlignedState(high, t)
    ensures LastAtOrBefore(high + later, t) == LastAtOrBefore(high, t)
  {
    if later != [] {
      var init := later[..|later| - 1];
      assert (high + later)[..|high + later| - 1] == high + init;
      AlignIgnoresLaterStates(high, init, t);
    } else {
      assert high + later == high;
    }
  }
}
