/** One bar of an aligned frame: OHLCV plus the indicator columns the kernel reads.
    Indicators are inputs here; a NaN value is None. */
module Bars {
  import opened Wrappers

  datatype Bar = Bar(
    time: int,
    open: real, high: real, low: real, close: real, volume: real,
    sma: Option<real>,        // SMA_30, the regime and trend average
    smaFast: Option<real>,    // SMA_10, the trend-up alignment filter
    atr: Option<real>,        // ATR_14
    bbUpper: Option<real>, bbMiddle: Option<real>, bbLower: Option<real>)  // BBANDS(20, 2.0)

  /** Time stamps strictly increase along the frame. */
  predicate StrictlyIncreasing(times: seq<int>) {
    forall i, j :: 0 <= i < j < |times| ==> times[i] < times[j]
  }
}
