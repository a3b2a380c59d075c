/** Risk sizing (core/risk.py): fixed-fraction-of-equity risk per trade. */
module Risk {
  import opened Wrappers

  datatype RiskManager = RiskManager(riskPerTrade: real) {

    /** calculate_position_size: (equity * risk) / |entry - stop|, or 0 for a bad price or a zero distance. */
    function PositionSize(equity: real, entryPrice: real, stopLossPrice: real): (qty: real)
      ensures entryPrice <= 0.0 || stopLossPrice <= 0.0 || entryPrice == stopLossPrice ==> qty == 0.0
      ensures entryPrice > 0.0 && stopLossPrice > 0.0 && entryPrice != stopLossPrice ==>
        qty * Abs(entryPrice - stopLossPrice) == equity * riskPerTrade
      ensures equity >= 0.0 && riskPerTrade >= 0.0 ==> qty >= 0.0
    {
      if entryPrice <= 0.0 || stopLossPrice <= 0.0 then 0.0
      else
        var riskAmount := equity * riskPerTrade;
        var priceDiff := Abs(entryPrice - stopLossPrice);
        if priceDiff == 0.0 then 0.0
        else riskAmount / priceDiff
    }
  }

  /** Swapping entry and stop gives the same size. */
  lemma SizeIsSymmetric(rm: RiskManager, equity: real, a: real, b: real)
    ensures rm.PositionSize(equity, a, b) == rm.PositionSize(equity, b, a)
  {
    assert Abs(a - b) == Abs(b - a);
  }

  /** 10000 of equity at 1% risk with entry 100 and stop 90 buys 10 units. */
  lemma SizeExample()
    ensures RiskManager(0.01).PositionSize(10000.0, 100.0, 90.0) == 10.0
  {
    assert Abs(100.0 - 90.0) == 10.0;
  }
}
