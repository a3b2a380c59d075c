/** The research alpha of research/alpha_breakout.py: Donchian entry/exit flags, a
    forward-filled long-only position, and the one-bar lag of the strategy return. */
module AlphaBreakout {
  import opened Wrappers
  import opened Bars
  import opened Channels

  /** One row of the frame generate_signals returns: the input bar untouched plus the new columns. */
  datatype SignalRow = SignalRow(
    bar: Bar,
    donchianHigh: Option<real>,
    donchianLow: Option<real>,
    signalRaw: Option<real>,
    position: real)

  function Highs(bars: seq<Bar>): (r: seq<real>)
    ensures |r| == |bars| && forall j :: 0 <= j < |bars| ==> r[j] == bars[j].high
  {
    seq(|bars|, j requires 0 <= j < |bars| => bars[j].high)
  }

  function Lows(bars: seq<Bar>): (r: seq<real>)
    ensures |r| == |bars| && forall j :: 0 <= j < |bars| ==> r[j] == bars[j].low
  {
    seq(|bars|, j requires 0 <= j < |bars| => bars[j].low)
  }

  /** signal_raw at bar i: 0 where the exit flag is set (it is written last), else 1 where the
      entry flag is set, else missing. A missing channel sets neither flag. */
  function SignalRaw(bars: seq<Bar>, i: nat, entryWindow: nat, exitWindow: nat): (r: Option<real>)
    requires i < |bars| && entryWindow >= 1 && exitWindow >= 1
    ensures r == Some(0.0) <==> LtOpt(bars[i].close, DonchianLow(Lows(bars), i, exitWindow))
    ensures r == Some(1.0) <==>
      GtOpt(bars[i].close, DonchianHigh(Highs(bars), i, entryWindow))
      && !LtOpt(bars[i].close, DonchianLow(Lows(bars), i, exitWindow))
    ensures r.None? || r == Some(0.0) || r == Some(1.0)
  {
    if LtOpt(bars[i].close, DonchianLow(Lows(bars), i, exitWindow)) then Some(0.0)
    else if GtOpt(bars[i].close, DonchianHigh(Highs(bars), i, entryWindow)) then Some(1.0)
    else None
  }

  /** The signal_raw column. */
  function RawSignals(bars: seq<Bar>, entryWindow: nat, exitWindow: nat): (r: seq<Option<real>>)
    requires entryWindow >= 1 && exitWindow >= 1
    ensures |r| == |bars| && forall j :: 0 <= j < |bars| ==> r[j] == SignalRaw(bars, j, entryWindow, exitWindow)
  {
    seq(|bars|, j requires 0 <= j < |bars| => SignalRaw(bars, j, entryWindow, exitWindow))
  }

  /** ffill().fillna(0) of a column at row i. */
  function FillForward(raw: seq<Option<real>>, i: nat): real
    requires i < |raw|
  {
    if raw[i].Some? then raw[i].value
    else if i == 0 then 0.0
    else FillForward(raw, i - 1)
  }

  /** The position column at bar i. */
  function FilledPosition(bars: seq<Bar>, i: nat, entryWindow: nat, exitWindow: nat): real
    requires i < |bars| && entryWindow >= 1 && exitWindow >= 1
  {
    FillForward(RawSignals(bars, entryWindow, exitWindow), i)
  }

  /** generate_signals: all columns, on a copy of the input rows. */
  function GenerateSignals(bars: seq<Bar>, entryWindow: nat, exitWindow: nat): (rows: seq<SignalRow>)
    requires entryWindow >= 1 && exitWindow >= 1
    ensures |rows| == |bars|
    ensures forall i :: 0 <= i < |bars| ==> rows[i].bar == bars[i]
    ensures forall i :: 0 <= i < |bars| ==>
      rows[i].donchianHigh == DonchianHigh(Highs(bars), i, entryWindow)
      && rows[i].donchianLow == DonchianLow(Lows(bars), i, exitWindow)
    ensures forall i :: 0 <= i < |bars| ==>
      rows[i].signalRaw == SignalRaw(bars, i, entryWindow, exitWindow)
      && rows[i].position == FilledPosition(bars, i, entryWindow, exitWindow)
  {
    seq(|bars|, i requires 0 <= i < |bars| =>
      SignalRow(bars[i],
                DonchianHigh(Highs(bars), i, entryWindow),
                DonchianLow(Lows(bars), i, exitWindow),
                SignalRaw(bars, i, entryWindow, exitWindow),
                FilledPosition(bars, i, entryWindow, exitWindow)))
  }

  /** A column of zeros, ones and gaps fills to zeros and ones. */
  lemma {:induction false} FillIsBinary(raw: seq<Option<real>>, i: nat)
    requires i < |raw| && forall j :: 0 <= j < |raw| ==> raw[j].None? || raw[j] == Some(0.0) || raw[j] == Some(1.0)
    ensures FillForward(raw, i) == 0.0 || FillForward(raw, i) == 1.0
  {
    if raw[i].None? && i > 0 {
      FillIsBinary(raw, i - 1);
    }
  }

  /** Before the first value the fill is 0. */
  lemma {:induction false} FillBeforeFirst(raw: seq<Option<real>>, i: nat)
    requires i < |raw| && forall j :: 0 <= j <= i ==> raw[j].None?
    ensures FillForward(raw, i) == 0.0
  {
    if i > 0 {
      FillBeforeFirst(raw, i - 1);
    }
  }

  /** After a value at row j and none since, the fill is that value. */
  lemma {:induction false} FillIsLatest(raw: seq<Option<real>>, i: nat, j: nat)
    requires j <= i < |raw| && raw[j].Some?
    requires forall k :: j < k <= i ==> raw[k].None?
    ensures FillForward(raw, i) == raw[j].value
  {
    if j < i {
      FillIsLatest(raw, i - 1, j);
    }
  }

  /** The position is the signal of the latest flagged bar at or before i, or 0 when none is
      flagged; in particular it is always 0 or 1. */
  lemma PositionIsLatestFlag(bars: seq<Bar>, i: nat, entryWindow: nat, exitWindow: nat)
    requires i < |bars| && entryWindow >= 1 && exitWindow >= 1
    ensures var p := FilledPosition(bars, i, entryWindow, exitWindow);
            p == 0.0 || p == 1.0
    ensures (forall j :: 0 <= j <= i ==> SignalRaw(bars, j, entryWindow, exitWindow).None?) ==>
              FilledPosition(bars, i, entryWindow, exitWindow) == 0.0
    ensures forall j :: (0 <= j <= i && SignalRaw(bars, j, entryWindow, exitWindow).Some?
                         && forall k :: j < k <= i ==> SignalRaw(bars, k, entryWindow, exitWindow).None?) ==>
              FilledPosition(bars, i, entryWindow, exitWindow) == SignalRaw(bars, j, entryWindow, exitWindow).value
  {
    var raw := RawSignals(bars, entryWindow, exitWindow);
    FillIsBinary(raw, i);
    if forall j :: 0 <= j <= i ==> SignalRaw(bars, j, entryWindow, exitWindow).None? {
      FillBeforeFirst(raw, i);
    }
    forall j | 0 <= j <= i && SignalRaw(bars, j, entryWindow, exitWindow).Some?
               && forall k :: j < k <= i ==> SignalRaw(bars, k, entryWindow, exitWindow).None?
      ensures FilledPosition(bars, i, entryWindow, exitWindow) == SignalRaw(bars, j, entryWindow, exitWindow).value
    {
      FillIsLatest(raw, i, j);
    }
  }

  /** No lookahead: two frames that agree up to bar i give the same columns at bar i, so
      bars after i never influence them. */
  lemma {:induction false} SignalsAreCausal(xs: seq<Bar>, ys: seq<Bar>, i: nat, entryWindow: nat, exitWindow: nat)
    requires i < |xs| && i < |ys| && entryWindow >= 1 && exitWindow >= 1
    requires xs[..i + 1] == ys[..i + 1]
    ensures SignalRaw(xs, i, entryWindow, exitWindow) == SignalRaw(ys, i, entryWindow, exitWindow)
    ensures FilledPosition(xs, i, entryWindow, exitWindow) == FilledPosition(ys, i, entryWindow, exitWindow)
  {
    assert xs[i] == xs[..i + 1][i] == ys[..i + 1][i] == ys[i];
    forall j | 0 <= j < i ensures Highs(xs)[j] == Highs(ys)[j] && Lows(xs)[j] == Lows(ys)[j] {
      assert xs[j] == xs[..i + 1][j];
    }
    assert Highs(xs)[..i] == Highs(ys)[..i];
    assert Lows(xs)[..i] == Lows(ys)[..i];
    ChannelsAreCausal(Highs(xs), Highs(ys), i, entryWindow);
    ChannelsAreCausal(Lows(xs), Lows(ys), i, exitWindow);
    if i > 0 {
      assert xs[..i] == xs[..i + 1][..i];
      assert ys[..i] == ys[..i + 1][..i];
      SignalsAreCausal(xs, ys, i - 1, entryWindow, exitWindow);
    }
  }

  /** close.pct_change() at bar i; missing at bar 0. A zero previous close (inf or NaN in
      floating point) is modelled as missing. */
  function PctChange(bars: seq<Bar>, i: nat): Option<real>
    requires i < |bars|
  {
    if i == 0 || bars[i - 1].close == 0.0 then None
    else Some(bars[i].close / bars[i - 1].close - 1.0)
  }

  /** strategy_returns at bar i: position.shift(1) times the return, so the position decided at
      the close of bar i - 1 earns the return of bar i. */
  function StrategyReturn(bars: seq<Bar>, i: nat, entryWindow: nat, exitWindow: nat): (r: Option<real>)
    requires i < |bars| && entryWindow >= 1 && exitWindow >= 1
    ensures i == 0 ==> r.None?
    ensures r.Some? ==> var p := FilledPosition(bars, i - 1, entryWindow, exitWindow);
                        PctChange(bars, i).Some? && r.value == p * PctChange(bars, i).value
    ensures i > 0 && PctChange(bars, i).Some? ==>
              r.Some? && r.value == FilledPosition(bars, i - 1, entryWindow, exitWindow) * PctChange(bars, i).value
  {
    var ret := PctChange(bars, i);
    if i == 0 || ret.None? then None
    else Some(FilledPosition(bars, i - 1, entryWindow, exitWindow) * ret.value)
  }
}
