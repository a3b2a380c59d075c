/** Donchian channels: rolling(window).max()/.min() shifted by one bar, as used by
    strategies/trend_breakout.py and research/alpha_breakout.py. */
module Channels {
  import opened Wrappers

  /** Largest value of a non-empty window. */
  function WindowMax(xs: seq<real>): (m: real)
    requires |xs| > 0
    ensures forall j :: 0 <= j < |xs| ==> xs[j] <= m
    ensures exists j :: 0 <= j < |xs| && xs[j] == m
  {
    if |xs| == 1 then xs[0]
    else
      var rest := WindowMax(xs[..|xs| - 1]);
      assert forall j :: 0 <= j < |xs| - 1 ==> xs[..|xs| - 1][j] == xs[j];
      if xs[|xs| - 1] > rest then xs[|xs| - 1] else rest
  }

  /** Smallest value of a non-empty window. */
  function WindowMin(xs: seq<real>): (m: real)
    requires |xs| > 0
    ensures forall j :: 0 <= j < |xs| ==> m <= xs[j]
    ensures exists j :: 0 <= j < |xs| && xs[j] == m
  {
    if |xs| == 1 then xs[0]
    else
      var rest := WindowMin(xs[..|xs| - 1]);
      assert forall j :: 0 <= j < |xs| - 1 ==> xs[..|xs| - 1][j] == xs[j];
      if xs[|xs| - 1] < rest then xs[|xs| - 1] else rest
  }

  /** The shifted upper channel at bar i: the highest of bars i-w .. i-1, missing while
      fewer than w earlier bars exist. */
  function DonchianHigh(highs: seq<real>, i: nat, w: nat): (r: Option<real>)
    requires i < |highs| && w >= 1
    ensures r.Some? <==> i >= w
    ensures r.Some? ==> forall j :: i - w <= j < i ==> highs[j] <= r.value
    ensures r.Some? ==> exists j :: i - w <= j < i && highs[j] == r.value
  {
    if i < w then None
    else
      var m := WindowMax(highs[i - w..i]);
      assert forall j :: i - w <= j < i ==> highs[i - w..i][j - (i - w)] == highs[j];
      Some(m)
  }

  /** The shifted lower channel at bar i: the lowest of bars i-w .. i-1. */
  function DonchianLow(lows: seq<real>, i: nat, w: nat): (r: Option<real>)
    requires i < |lows| && w >= 1
    ensures r.Some? <==> i >= w
    ensures r.Some? ==> forall j :: i - w <= j < i ==> r.value <= lows[j]
    ensures r.Some? ==> exists j :: i - w <= j < i && lows[j] == r.value
  {
    if i < w then None
    else
      var m := WindowMin(lows[i - w..i]);
      assert forall j :: i - w <= j < i ==> lows[i - w..i][j - (i - w)] == lows[j];
      Some(m)
  }

  /** Causality: the channels at bar i do not depend on bar i itself or on any later bar. */
  lemma ChannelsAreCausal(xs: seq<real>, ys: seq<real>, i: nat, w: nat)
    requires i < |xs| && i < |ys| && w >= 1
    requires xs[..i] == ys[..i]
    ensures DonchianHigh(xs, i, w) == DonchianHigh(ys, i, w)
    ensures DonchianLow(xs, i, w) == DonchianLow(ys, i, w)
  {
    if i >= w {
      assert xs[i - w..i] == xs[..i][i - w..] == ys[..i][i - w..] == ys[i - w..i];
    }
  }
}
