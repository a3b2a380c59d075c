/** The position ledger (core/portfolio.py): cash plus one signed position per symbol,
    with the source's exact averaging and removal rules. */
module Ledger {
  import opened Wrappers

  /** One ledger entry: signed quantity (long > 0, short < 0) and average entry price. */
  datatype Position = Position(qty: real, avgPrice: real)

  /** What get_position answers for a symbol the ledger does not hold. */
  const Flat := Position(0.0, 0.0)

  /** The source's is_opening test: from flat to non-flat, or growing in the current direction. */
  predicate Opens(oldQty: real, delta: real) {
    var newQty := oldQty + delta;
    (oldQty == 0.0 && newQty != 0.0)
    || (oldQty > 0.0 && newQty > oldQty)
    || (oldQty < 0.0 && newQty < oldQty)
  }

  /** The position a fill leaves behind (Flat when it is deleted), as update_position computes it. */
  function Fill(pos: Position, delta: real, price: real): (r: Position)
    ensures r.qty == pos.qty + delta
    ensures Opens(pos.qty, delta) ==>
      r.avgPrice * Abs(r.qty) == Abs(pos.qty) * pos.avgPrice + Abs(delta) * price
    ensures Opens(pos.qty, delta) && pos.qty == 0.0 ==> r.avgPrice == price
    ensures !Opens(pos.qty, delta) && r.qty != 0.0 ==> r.avgPrice == pos.avgPrice
    ensures r.qty == 0.0 ==> r == Flat
  {
    var newQty := pos.qty + delta;
    if Opens(pos.qty, delta) then
      var total := Abs(pos.qty) * pos.avgPrice + Abs(delta) * price;
      var avg := total / Abs(newQty);
      assert avg * Abs(newQty) == total;
      Position(newQty, avg)
    else if newQty == 0.0 then Flat
    else Position(newQty, pos.avgPrice)
  }

  /** Adding in the current direction leaves the quantity-weighted mean of the old average and the fill price. */
  lemma AddingAveragesByWeight(pos: Position, delta: real, price: real)
    requires pos.qty != 0.0 && delta != 0.0
    requires (pos.qty > 0.0) == (delta > 0.0)
    ensures Fill(pos, delta, price).avgPrice
      == (Abs(pos.qty) * pos.avgPrice + Abs(delta) * price) / (Abs(pos.qty) + Abs(delta))
  {
    assert Opens(pos.qty, delta);
    assert Abs(pos.qty + delta) == Abs(pos.qty) + Abs(delta);
  }

  /** A flip through zero (+5 then -8) is not an opening: the stored average survives. */
  lemma FlipKeepsAverage(avg: real, price: real)
    ensures Fill(Position(5.0, avg), -8.0, price) == Position(-3.0, avg)
  {
    assert !Opens(5.0, -8.0);
  }

  /** The price an open position is marked at: the current price, else its own average price. */
  function Mark(p: Position, symbol: string, prices: map<string, real>): real {
    if symbol in prices then prices[symbol] else p.avgPrice
  }

  /** Sum of qty * mark over the given keys (get_equity's loop, without the cash). */
  function MarkedValue(keys: seq<string>, positions: map<string, Position>, prices: map<string, real>): real
    requires forall k :: k in keys ==> k in positions
  {
    if keys == [] then 0.0
    else
      var last := keys[|keys| - 1];
      MarkedValue(keys[..|keys| - 1], positions, prices) + positions[last].qty * Mark(positions[last], last, prices)
  }

  /** Sum of |qty| * mark over the given keys (get_total_exposure's loop). */
  function Exposure(keys: seq<string>, positions: map<string, Position>, prices: map<string, real>): real
    requires forall k :: k in keys ==> k in positions
  {
    if keys == [] then 0.0
    else
      var last := keys[|keys| - 1];
      Exposure(keys[..|keys| - 1], positions, prices) + Abs(positions[last].qty) * Mark(positions[last], last, prices)
  }

  /** Every mark used for these keys is non-negative. */
  ghost predicate MarksNonNegative(keys: seq<string>, positions: map<string, Position>, prices: map<string, real>)
    requires forall k :: k in keys ==> k in positions
  {
    forall k :: k in keys ==> Mark(positions[k], k, prices) >= 0.0
  }

  /** With non-negative marks the gross exposure is non-negative and bounds the net marked value. */
  lemma {:induction false} ExposureBoundsValue(keys: seq<string>, positions: map<string, Position>, prices: map<string, real>)
    requires forall k :: k in keys ==> k in positions
    requires MarksNonNegative(keys, positions, prices)
    ensures Exposure(keys, positions, prices) >= 0.0
    ensures -Exposure(keys, positions, prices) <= MarkedValue(keys, positions, prices) <= Exposure(keys, positions, prices)
  {
    if keys != [] {
      var init := keys[..|keys| - 1];
      var last := keys[|keys| - 1];
      assert forall k :: k in init ==> k in keys;
      ExposureBoundsValue(init, positions, prices);
      var m := Mark(positions[last], last, prices);
      var q := positions[last].qty;
      assert m >= 0.0;
      assert Abs(q) * m >= 0.0;
      assert -(Abs(q) * m) <= q * m <= Abs(q) * m by {
        if q < 0.0 { assert Abs(q) * m == -(q * m); } else { assert Abs(q) * m == q * m; }
      }
    }
  }

  /** A value copy of the ledger's state: cash, positions, and their insertion order. */
  datatype Book = Book(cash: real, positions: map<string, Position>, order: seq<string>)

  /** The ledger's own invariant, on a copy. */
  ghost predicate BookValid(b: Book) {
    && Distinct(b.order)
    && (forall k :: k in b.positions <==> k in b.order)
    && (forall k :: k in b.positions ==> b.positions[k].qty != 0.0)
  }

  /** get_position on a copy. */
  function PositionIn(b: Book, symbol: string): Position {
    if symbol in b.positions then b.positions[symbol] else Flat
  }

  /** get_total_value on a copy: the cash plus every position at its mark, in insertion order. */
  function BookValue(b: Book, prices: map<string, real>): real
    requires BookValid(b)
  {
    b.cash + MarkedValue(b.order, b.positions, prices)
  }

  /** update_position on a copy: the fee and qty_delta * price leave the cash, and the symbol's
      entry becomes the fill; a flat result is deleted from the dict, a new one is appended. */
  function Updated(b: Book, symbol: string, qtyDelta: real, price: real, fee: real): (r: Book)
    requires BookValid(b)
    ensures BookValid(r)
    ensures r.cash == b.cash - fee - qtyDelta * price
    ensures PositionIn(r, symbol) == Fill(PositionIn(b, symbol), qtyDelta, price)
    ensures r.positions - {symbol} == b.positions - {symbol}
    ensures forall k :: k in r.order && k != symbol ==> k in b.order
  {
    var p := Fill(PositionIn(b, symbol), qtyDelta, price);
    var cash := b.cash - fee - qtyDelta * price;
    if p.qty == 0.0 then
      Book(cash, b.positions - {symbol}, if symbol in b.positions then Remove(b.order, symbol) else b.order)
    else if symbol in b.positions then
      Book(cash, b.positions[symbol := p], b.order)
    else
      AppendedKeepsDistinct(b.order, symbol);
      Book(cash, b.positions[symbol := p], b.order + [symbol])
  }

  /** A valid ledger whose cash, entry for the symbol, other entries and key order are those
      update_position promises is the copy Updated computes. */
  lemma UpdatedIsDetermined(b: Book, r: Book, symbol: string, qtyDelta: real, price: real, fee: real)
    requires BookValid(b) && BookValid(r)
    requires r.cash == b.cash - fee - qtyDelta * price
    requires PositionIn(r, symbol) == Fill(PositionIn(b, symbol), qtyDelta, price)
    requires r.positions - {symbol} == b.positions - {symbol}
    requires r.order == if symbol in b.positions && symbol !in r.positions then Remove(b.order, symbol)
                        else if symbol !in b.positions && symbol in r.positions then b.order + [symbol]
                        else b.order
    ensures r == Updated(b, symbol, qtyDelta, price, fee)
  {
    var p := Fill(PositionIn(b, symbol), qtyDelta, price);
    if p.qty == 0.0 {
      FlatEntryDropped(b.positions, r.positions, symbol);
    } else {
      HeldEntryReplaced(b.positions, r.positions, symbol, p);
    }
  }

  lemma FlatEntryDropped(before: map<string, Position>, after: map<string, Position>, symbol: string)
    requires after - {symbol} == before - {symbol}
    requires symbol !in after
    ensures after == before - {symbol}
  {
    assert after == after - {symbol};
  }

  lemma HeldEntryReplaced(before: map<string, Position>, after: map<string, Position>, symbol: string, p: Position)
    requires after - {symbol} == before - {symbol}
    requires symbol in after && after[symbol] == p
    ensures after == before[symbol := p]
  {
    forall k | k in after ensures k in before[symbol := p] && after[k] == before[symbol := p][k] {
      if k != symbol { assert k in after - {symbol}; }
    }
    forall k | k in before[symbol := p] ensures k in after {
      if k != symbol { assert k in before - {symbol}; }
    }
  }

  lemma AppendedKeepsDistinct(s: seq<string>, x: string)
    requires Distinct(s) && x !in s
    ensures Distinct(s + [x])
  {
    forall i, j | 0 <= i < j < |s + [x]| ensures (s + [x])[i] != (s + [x])[j] {
      if j == |s| { assert (s + [x])[i] == s[i]; assert s[i] in s; }
      else { assert (s + [x])[i] == s[i] && (s + [x])[j] == s[j]; }
    }
  }

  class Portfolio {
    const initialCapital: real
    var cash: real
    /** symbol -> position; no stored entry is ever flat. */
    var positions: map<string, Position>
    /** The keys of positions in the dictionary's insertion order. */
    var order: seq<string>

    ghost predicate Valid()
      reads this
    {
      && Distinct(order)
      && (forall k :: k in positions <==> k in order)
      && (forall k :: k in positions ==> positions[k].qty != 0.0)
    }

    /** The ledger's state as a value. */
    function Snapshot(): (b: Book)
      reads this
      ensures Valid() <==> BookValid(b)
      ensures b.cash == cash && b.positions == positions && b.order == order
    {
      Book(cash, positions, order)
    }

    constructor (initialCapital: real)
      ensures Valid()
      ensures this.initialCapital == initialCapital && cash == initialCapital
      ensures positions == map[] && order == []
    {
      this.initialCapital := initialCapital;
      cash := initialCapital;
      positions := map[];
      order := [];
    }

    /** get_position: the stored entry, or Flat without creating one. */
    function GetPosition(symbol: string): (p: Position)
      reads this
      ensures symbol !in positions ==> p == Flat
      ensures symbol in positions ==> p == positions[symbol]
      ensures Valid() ==> (p.qty == 0.0 <==> symbol !in positions)
    {
      if symbol in positions then positions[symbol] else Flat
    }

    /** update_position: pay the fee and qty_delta * price, then open/add, reduce, flip or delete. */
    method UpdatePosition(symbol: string, qtyDelta: real, price: real, fee: real)
      requires Valid()
      modifies this
      ensures Valid()
      ensures cash == old(cash) - fee - qtyDelta * price
      ensures GetPosition(symbol) == Fill(old(GetPosition(symbol)), qtyDelta, price)
      ensures positions - {symbol} == old(positions) - {symbol}
      ensures order == if symbol in old(positions) && symbol !in positions then Remove(old(order), symbol)
                       else if symbol !in old(positions) && symbol in positions then old(order) + [symbol]
                       else old(order)
      ensures Snapshot() == Updated(old(Snapshot()), symbol, qtyDelta, price, fee)
    {
      ghost var before := Snapshot();
      UpdatePositionBody(symbol, qtyDelta, price, fee);
      UpdatedIsDetermined(before, Snapshot(), symbol, qtyDelta, price, fee);
    }

    /** The statements of update_position. */
    method UpdatePositionBody(symbol: string, qtyDelta: real, price: real, fee: real)
      requires Valid()
      modifies this
      ensures Valid()
      ensures cash == old(cash) - fee - qtyDelta * price
      ensures GetPosition(symbol) == Fill(old(GetPosition(symbol)), qtyDelta, price)
      ensures positions - {symbol} == old(positions) - {symbol}
      ensures order == if symbol in old(positions) && symbol !in positions then Remove(old(order), symbol)
                       else if symbol !in old(positions) && symbol in positions then old(order) + [symbol]
                       else old(order)
    {
      cash := cash - fee;
      var current := GetPosition(symbol);
      var oldQty := current.qty;
      var newQty := oldQty + qtyDelta;
      var cost := qtyDelta * price;
      cash := cash - cost;

      var isOpening := false;
      if oldQty == 0.0 && newQty != 0.0 {
        isOpening := true;
      } else if oldQty > 0.0 && newQty > oldQty {
        isOpening := true;
      } else if oldQty < 0.0 && newQty < oldQty {
        isOpening := true;
      }

      if isOpening {
        var totalValue := Abs(oldQty) * current.avgPrice + Abs(qtyDelta) * price;
        var newAvgPrice := totalValue / Abs(newQty);
        if symbol !in positions {
          order := order + [symbol];
        }
        positions := positions[symbol := Position(newQty, newAvgPrice)];
      } else if newQty == 0.0 {
        if symbol in positions {
          positions := positions - {symbol};
          order := Remove(order, symbol);
        }
      } else {
        // reducing or flipping: only a held symbol can get here, and its average stays
        assert symbol in positions;
        positions := positions[symbol := Position(newQty, positions[symbol].avgPrice)];
      }
    }

    /** get_equity: cash plus the marked value of every position, in insertion order. */
    method GetEquity(prices: map<string, real>) returns (equity: real)
      requires Valid()
      ensures equity == cash + MarkedValue(order, positions, prices)
    {
      equity := cash;
      var i := 0;
      while i < |order|
        invariant 0 <= i <= |order|
        invariant equity == cash + MarkedValue(order[..i], positions, prices)
      {
        var symbol := order[i];
        var pos := positions[symbol];
        var price := if symbol in prices then prices[symbol] else pos.avgPrice;
        assert order[..i + 1][..i] == order[..i];
        equity := equity + pos.qty * price;
        i := i + 1;
      }
      assert order[..|order|] == order;
    }

    /** get_total_value is an alias of get_equity. */
    method GetTotalValue(prices: map<string, real>) returns (value: real)
      requires Valid()
      ensures value == cash + MarkedValue(order, positions, prices)
    {
      value := GetEquity(prices);
    }

    /** get_total_exposure: sum of |qty| * mark over the positions. */
    method GetTotalExposure(prices: map<string, real>) returns (exposure: real)
      requires Valid()
      ensures exposure == Exposure(order, positions, prices)
    {
      exposure := 0.0;
      var i := 0;
      while i < |order|
        invariant 0 <= i <= |order|
        invariant exposure == Exposure(order[..i], positions, prices)
      {
        var symbol := order[i];
        var pos := positions[symbol];
        var qty := Abs(pos.qty);
        var price := if symbol in prices then prices[symbol] else pos.avgPrice;
        assert order[..i + 1][..i] == order[..i];
        exposure := exposure + qty * price;
        i := i + 1;
      }
      assert order[..|order|] == order;
    }
  }

  /** Cash 10000 and one unit marked at 50000 is worth 60000; without a mark the average is used. */
  lemma EquityExample(avg: real)
    ensures 10000.0 + MarkedValue(["BTC"], map["BTC" := Position(1.0, avg)], map["BTC" := 50000.0]) == 60000.0
    ensures 10000.0 + MarkedValue(["BTC"], map["BTC" := Position(1.0, avg)], map[]) == 10000.0 + avg
  {
    assert ["BTC"][..0] == [];
  }
}
