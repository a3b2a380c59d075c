/** The trade analysis of backtest/reporting.py: FIFO lot matching per symbol that turns a
    fill log into closed round trips, and the trade metrics computed from them. */
module Reporting {
  import opened Wrappers

  /** One row of the fill log as the reporter reads it (fill_price and slip, not the broker's price). */
  datatype ReportRow = ReportRow(
    symbol: string, side: string, qty: real, fillPrice: real,
    commission: real, slip: real, strategyId: string)

  /** An open lot on a stack: (qty, price, strategy_id, unit_comm, unit_slip). */
  datatype Lot = Lot(qty: real, price: real, strategy: string, unitComm: real, unitSlip: real)

  /** One matched slice of a round trip. */
  datatype ClosedTrade = ClosedTrade(grossPnl: real, netPnl: real, commission: real, slippage: real,
                                     strategy: string)

  /** The per-symbol long and short stacks, oldest lot first. */
  datatype Book = Book(longs: seq<Lot>, shorts: seq<Lot>)

  const EmptyBook := Book([], [])

  /** The commission per unit of a row; zero for a non-positive quantity. */
  function UnitCommission(row: ReportRow): real {
    if row.qty > 0.0 then row.commission / row.qty else 0.0
  }

  /** Python's min(a, b). */
  function MinReal(a: real, b: real): (r: real)
    ensures r <= a && r <= b && (r == a || r == b)
  {
    if b < a then b else a
  }

  /** A closed slice: commission and slippage of both legs, and slippage is not subtracted. */
  ghost predicate Consistent(t: ClosedTrade) {
    t.netPnl == t.grossPnl - t.commission
  }

  /** The round trip for matched units of an open lot, closed at exitPrice. */
  function CloseTrade(lot: Lot, matched: real, exitPrice: real, unitComm: real, unitSlip: real,
                      closingLong: bool): (t: ClosedTrade)
    ensures Consistent(t) && t.strategy == lot.strategy
  {
    var gross := if closingLong then (exitPrice - lot.price) * matched else (lot.price - exitPrice) * matched;
    var comm := (lot.unitComm + unitComm) * matched;
    ClosedTrade(gross, gross - comm, comm, (lot.unitSlip + unitSlip) * matched, lot.strategy)
  }

  /** What a closing row leaves: the slices it closed, the stack, and the unmatched quantity. */
  datatype MatchResult = MatchResult(closed: seq<ClosedTrade>, stack: seq<Lot>, remaining: real)

  function TotalQty(lots: seq<Lot>): real {
    if lots == [] then 0.0 else lots[0].qty + TotalQty(lots[1..])
  }

  /** The inner while loop: consume the oldest lot first; a partly used lot goes back on top
      with the rest of its quantity. */
  function MatchLots(remaining: real, stack: seq<Lot>, price: real, unitComm: real, unitSlip: real,
                     closingLong: bool): (r: MatchResult)
    ensures forall t :: t in r.closed ==> Consistent(t)
    ensures |r.stack| <= |stack|
    decreases |stack|
  {
    if remaining <= 0.0 || stack == [] then MatchResult([], stack, remaining)
    else
      var lot := stack[0];
      var m := MinReal(remaining, lot.qty);
      var t := CloseTrade(lot, m, price, unitComm, unitSlip, closingLong);
      if lot.qty > m then MatchResult([t], [lot.(qty := lot.qty - m)] + stack[1..], remaining - m)
      else
        var rest := MatchLots(remaining - m, stack[1..], price, unitComm, unitSlip, closingLong);
        MatchResult([t] + rest.closed, rest.stack, rest.remaining)
  }

  /** One turn of the matching loop: the oldest lot closes min(remaining, lot qty) units and
      matching goes on with the rest of the row against what is left of the stack. */
  /** The slices closed before a match, put in front of its result. */
  function Prepend(closed: seq<ClosedTrade>, r: MatchResult): MatchResult {
    MatchResult(closed + r.closed, r.stack, r.remaining)
  }

  lemma {:induction false} MatchLotsStep(remaining: real, stack: seq<Lot>, price: real, unitComm: real,
                                          unitSlip: real, closingLong: bool, m: real, next: seq<Lot>)
    requires remaining > 0.0 && stack != [] && m == MinReal(remaining, stack[0].qty)
    requires next == if stack[0].qty > m then [stack[0].(qty := stack[0].qty - m)] + stack[1..] else stack[1..]
    ensures MatchLots(remaining, stack, price, unitComm, unitSlip, closingLong)
              == Prepend([CloseTrade(stack[0], m, price, unitComm, unitSlip, closingLong)],
                         MatchLots(remaining - m, next, price, unitComm, unitSlip, closingLong))
  {
    if stack[0].qty > m {
      assert m == remaining;
      assert MatchLots(remaining - m, next, price, unitComm, unitSlip, closingLong) == MatchResult([], next, remaining - m);
    }
  }

  /** Quantity is conserved: what left the stack plus what is left over is the row's quantity. */
  lemma {:induction false} MatchConservesQty(remaining: real, stack: seq<Lot>, price: real, unitComm: real,
                                              unitSlip: real, closingLong: bool)
    ensures var r := MatchLots(remaining, stack, price, unitComm, unitSlip, closingLong);
            (TotalQty(stack) - TotalQty(r.stack)) + r.remaining == remaining
    decreases |stack|
  {
    if remaining <= 0.0 || stack == [] {
    } else {
      var lot := stack[0];
      var m := MinReal(remaining, lot.qty);
      if lot.qty > m {
        var reduced := [lot.(qty := lot.qty - m)] + stack[1..];
        assert reduced[1..] == stack[1..];
      } else {
        MatchConservesQty(remaining - m, stack[1..], price, unitComm, unitSlip, closingLong);
      }
    }
  }

  /** Matching stops only when the row is used up or the stack is empty. */
  lemma {:induction false} MatchExhausts(remaining: real, stack: seq<Lot>, price: real, unitComm: real,
                                          unitSlip: real, closingLong: bool)
    ensures var r := MatchLots(remaining, stack, price, unitComm, unitSlip, closingLong);
            && (r.remaining <= 0.0 || r.stack == [])
            && (remaining > 0.0 ==> r.remaining >= 0.0)
            && (remaining <= 0.0 ==> r == MatchResult([], stack, remaining))
    decreases |stack|
  {
    if remaining <= 0.0 || stack == [] {
    } else {
      var m := MinReal(remaining, stack[0].qty);
      if stack[0].qty <= m {
        MatchExhausts(remaining - m, stack[1..], price, unitComm, unitSlip, closingLong);
      }
    }
  }

  /** FIFO shape of a stack after matching: a suffix of the stack, except that its first lot
      may be the next lot of the stack with a smaller quantity and everything else unchanged. */
  ghost predicate FifoRest(stack: seq<Lot>, rest: seq<Lot>) {
    var k := |stack| - |rest|;
    && 0 <= k <= |stack|
    && (|| rest == stack[k..]
        || (rest != [] && rest[1..] == stack[k + 1..]
            && rest[0] == stack[k].(qty := rest[0].qty) && rest[0].qty < stack[k].qty))
  }

  lemma FifoRestTail(stack: seq<Lot>, rest: seq<Lot>)
    requires stack != [] && FifoRest(stack[1..], rest)
    ensures FifoRest(stack, rest)
  {
    var k := |stack[1..]| - |rest|;
    assert stack[1..][k..] == stack[k + 1..];
    if rest != [] {
      assert stack[1..][k + 1..] == stack[k + 2..];
    }
  }

  /** FIFO: matching only ever takes lots from the front of the stack. */
  lemma {:induction false} MatchIsFifo(remaining: real, stack: seq<Lot>, price: real, unitComm: real,
                                        unitSlip: real, closingLong: bool)
    ensures FifoRest(stack, MatchLots(remaining, stack, price, unitComm, unitSlip, closingLong).stack)
    decreases |stack|
  {
    if remaining <= 0.0 || stack == [] {
      assert stack[0..] == stack;
    } else {
      var m := MinReal(remaining, stack[0].qty);
      var next := if stack[0].qty > m then [stack[0].(qty := stack[0].qty - m)] + stack[1..] else stack[1..];
      MatchLotsStep(remaining, stack, price, unitComm, unitSlip, closingLong, m, next);
      var r := MatchLots(remaining - m, next, price, unitComm, unitSlip, closingLong);
      if stack[0].qty > m {
        assert m == remaining;
        assert r.stack == next;
        assert next[1..] == stack[1..];
      } else {
        MatchIsFifo(remaining - m, stack[1..], price, unitComm, unitSlip, closingLong);
        FifoRestTail(stack, r.stack);
      }
    }
  }

  /** The oldest lot is the one closed first, at min(remaining, lot qty) units. */
  lemma OldestLotFirst(remaining: real, stack: seq<Lot>, price: real, unitComm: real, unitSlip: real,
                       closingLong: bool)
    requires remaining > 0.0 && stack != []
    ensures var r := MatchLots(remaining, stack, price, unitComm, unitSlip, closingLong);
            var m := MinReal(remaining, stack[0].qty);
            && r.closed != []
            && r.closed[0].strategy == stack[0].strategy
            && r.closed[0].grossPnl == (if closingLong then (price - stack[0].price) * m else (stack[0].price - price) * m)
            && r.closed[0].commission == (stack[0].unitComm + unitComm) * m
            && r.closed[0].slippage == (stack[0].unitSlip + unitSlip) * m
  {
    var m := MinReal(remaining, stack[0].qty);
    MatchLotsStep(remaining, stack, price, unitComm, unitSlip, closingLong, m,
                  if stack[0].qty > m then [stack[0].(qty := stack[0].qty - m)] + stack[1..] else stack[1..]);
    var r := MatchLots(remaining, stack, price, unitComm, unitSlip, closingLong);
    assert r.closed[0] == CloseTrade(stack[0], m, price, unitComm, unitSlip, closingLong);
  }

  /** A row's effect on the symbol's book, with the slices it closed. */
  datatype RowResult = RowResult(book: Book, closed: seq<ClosedTrade>)

  /** One row of the per-symbol loop. buy and cover close shorts and open a long with any
      leftover; sell closes longs and opens a short with the leftover; short only opens a short;
      any other side is ignored. */
  function ApplyRow(book: Book, row: ReportRow): (r: RowResult)
    ensures row.side == "short" ==>
      r == RowResult(book.(shorts := book.shorts + [Lot(row.qty, row.fillPrice, row.strategyId, UnitCommission(row), row.slip)]), [])
    ensures row.side !in {"buy", "sell", "short", "cover"} ==> r == RowResult(book, [])
    ensures forall t :: t in r.closed ==> Consistent(t)
  {
    var uc := UnitCommission(row);
    var lot := Lot(0.0, row.fillPrice, row.strategyId, uc, row.slip);
    if row.side == "buy" || row.side == "cover" then
      var m := MatchLots(row.qty, book.shorts, row.fillPrice, uc, row.slip, false);
      var longs := if m.remaining > 0.0 then book.longs + [lot.(qty := m.remaining)] else book.longs;
      RowResult(Book(longs, m.stack), m.closed)
    else if row.side == "sell" then
      var m := MatchLots(row.qty, book.longs, row.fillPrice, uc, row.slip, true);
      var shorts := if m.remaining > 0.0 then book.shorts + [lot.(qty := m.remaining)] else book.shorts;
      RowResult(Book(m.stack, shorts), m.closed)
    else if row.side == "short" then
      RowResult(book.(shorts := book.shorts + [lot.(qty := row.qty)]), [])
    else RowResult(book, [])
  }

  /** The net quantity a book holds: longs minus shorts. */
  function NetQty(book: Book): real {
    TotalQty(book.longs) - TotalQty(book.shorts)
  }

  /** The signed quantity a row moves the position by. */
  function SignedQty(row: ReportRow): real {
    if (row.side == "buy" || row.side == "cover") && row.qty > 0.0 then row.qty
    else if row.side == "sell" && row.qty > 0.0 then -row.qty
    else if row.side == "short" then -row.qty
    else 0.0
  }

  lemma {:induction false} TotalQtyAppend(lots: seq<Lot>, lot: Lot)
    ensures TotalQty(lots + [lot]) == TotalQty(lots) + lot.qty
  {
    if lots != [] {
      assert (lots + [lot])[1..] == lots[1..] + [lot];
      TotalQtyAppend(lots[1..], lot);
    }
  }

  /** The book always nets to the signed sum of the rows it has seen: each row moves it by
      exactly its own signed quantity, however that quantity splits between closing and opening. */
  lemma BookTracksNetQty(book: Book, row: ReportRow)
    ensures NetQty(ApplyRow(book, row).book) == NetQty(book) + SignedQty(row)
  {
    var uc := UnitCommission(row);
    var lot := Lot(0.0, row.fillPrice, row.strategyId, uc, row.slip);
    if row.side == "buy" || row.side == "cover" {
      MatchConservesQty(row.qty, book.shorts, row.fillPrice, uc, row.slip, false);
      MatchExhausts(row.qty, book.shorts, row.fillPrice, uc, row.slip, false);
      var m := MatchLots(row.qty, book.shorts, row.fillPrice, uc, row.slip, false);
      TotalQtyAppend(book.longs, lot.(qty := m.remaining));
    } else if row.side == "sell" {
      MatchConservesQty(row.qty, book.longs, row.fillPrice, uc, row.slip, true);
      MatchExhausts(row.qty, book.longs, row.fillPrice, uc, row.slip, true);
      var m := MatchLots(row.qty, book.longs, row.fillPrice, uc, row.slip, true);
      TotalQtyAppend(book.shorts, lot.(qty := m.remaining));
    } else if row.side == "short" {
      TotalQtyAppend(book.shorts, lot.(qty := row.qty));
    }
  }

  /** The loop over one symbol's group: the book and the slices closed so far. Rows of other
      symbols are not part of the group. */
  function Replay(rows: seq<ReportRow>, symbol: string): (r: RowResult)
    ensures forall t :: t in r.closed ==> Consistent(t)
  {
    if rows == [] then RowResult(EmptyBook, [])
    else
      var prev := Replay(rows[..|rows| - 1], symbol);
      var row := rows[|rows| - 1];
      if row.symbol == symbol then
        var a := ApplyRow(prev.book, row);
        RowResult(a.book, prev.closed + a.closed)
      else prev
  }

  /** Each symbol is matched on its own: rows of another symbol change nothing. */
  lemma OtherSymbolsIgnored(rows: seq<ReportRow>, row: ReportRow, symbol: string)
    requires row.symbol != symbol
    ensures Replay(rows + [row], symbol) == Replay(rows, symbol)
  {
    assert (rows + [row])[..|rows|] == rows;
  }

  /** The symbols, each once, in order of first appearance (groupby visits them sorted). */
  function Symbols(rows: seq<ReportRow>): (s: seq<string>)
    ensures Distinct(s)
    ensures (set x | x in s) == (set r | r in rows :: r.symbol)
  {
    if rows == [] then []
    else
      var init := rows[..|rows| - 1];
      var prev := Symbols(init);
      var x := rows[|rows| - 1].symbol;
      assert rows == init + [rows[|rows| - 1]];
      assert (set r | r in rows :: r.symbol) == (set r | r in init :: r.symbol) + {x};
      if x in prev then prev else prev + [x]
  }

  /** The closed slices of the given symbols' groups, one group after another. */
  function ClosedOver(rows: seq<ReportRow>, symbols: seq<string>): (c: seq<ClosedTrade>)
    ensures forall t :: t in c ==> Consistent(t)
  {
    if symbols == [] then []
    else ClosedOver(rows, symbols[..|symbols| - 1]) + Replay(rows, symbols[|symbols| - 1]).closed
  }

  function ClosedTrades(rows: seq<ReportRow>): seq<ClosedTrade> {
    ClosedOver(rows, Symbols(rows))
  }

  // ---------------------------------------------------------------- metrics

  function Nets(c: seq<ClosedTrade>): seq<real> {
    if c == [] then [] else Nets(c[..|c| - 1]) + [c[|c| - 1].netPnl]
  }

  function SumReal(xs: seq<real>): real {
    if xs == [] then 0.0 else SumReal(xs[..|xs| - 1]) + xs[|xs| - 1]
  }

  function SumGross(c: seq<ClosedTrade>): real {
    if c == [] then 0.0 else SumGross(c[..|c| - 1]) + c[|c| - 1].grossPnl
  }

  function SumCommission(c: seq<ClosedTrade>): real {
    if c == [] then 0.0 else SumCommission(c[..|c| - 1]) + c[|c| - 1].commission
  }

  function SumSlippage(c: seq<ClosedTrade>): real {
    if c == [] then 0.0 else SumSlippage(c[..|c| - 1]) + c[|c| - 1].slippage
  }

  /** The winning net PnLs (strictly positive) and the losing ones (zero counts as a loss). */
  function Wins(xs: seq<real>): (w: seq<real>)
    ensures forall x :: x in w ==> x > 0.0
    ensures |w| <= |xs|
  {
    if xs == [] then []
    else Wins(xs[..|xs| - 1]) + (if xs[|xs| - 1] > 0.0 then [xs[|xs| - 1]] else [])
  }

  function Losses(xs: seq<real>): (l: seq<real>)
    ensures forall x :: x in l ==> x <= 0.0
    ensures |l| <= |xs|
  {
    if xs == [] then []
    else Losses(xs[..|xs| - 1]) + (if xs[|xs| - 1] <= 0.0 then [xs[|xs| - 1]] else [])
  }

  /** Every net PnL is either a win or a loss, so counts and sums split exactly. */
  lemma {:induction false} WinsAndLossesPartition(xs: seq<real>)
    ensures |Wins(xs)| + |Losses(xs)| == |xs|
    ensures SumReal(Wins(xs)) + SumReal(Losses(xs)) == SumReal(xs)
  {
    if xs != [] {
      var init := xs[..|xs| - 1];
      var x := xs[|xs| - 1];
      WinsAndLossesPartition(init);
      SumAppend(Wins(init), if x > 0.0 then [x] else []);
      SumAppend(Losses(init), if x <= 0.0 then [x] else []);
    }
  }

  lemma {:induction false} SumAppend(xs: seq<real>, ys: seq<real>)
    ensures SumReal(xs + ys) == SumReal(xs) + SumReal(ys)
    decreases |ys|
  {
    if ys != [] {
      assert (xs + ys)[..|xs + ys| - 1] == xs + ys[..|ys| - 1];
      assert (xs + ys)[|xs + ys| - 1] == ys[|ys| - 1];
      SumAppend(xs, ys[..|ys| - 1]);
    } else {
      assert xs + ys == xs;
    }
  }

  /** Net PnL in total is gross PnL less commission; slippage is reported beside it, not taken off. */
  lemma {:induction false} NetIsGrossLessCommission(c: seq<ClosedTrade>)
    requires forall t :: t in c ==> Consistent(t)
    ensures SumReal(Nets(c)) == SumGross(c) - SumCommission(c)
  {
    if c != [] {
      assert c[|c| - 1] in c;
      NetIsGrossLessCommission(c[..|c| - 1]);
    }
  }

  function Ratio(num: real, den: real): (r: ExtReal)
    ensures r == PosInf <==> den == 0.0
  {
    if den != 0.0 then Finite(num / den) else PosInf
  }

  /** Mean of a list, 0 for an empty one. */
  function Mean(xs: seq<real>): real {
    if xs == [] then 0.0 else SumReal(xs) / (|xs| as real)
  }

  /** The per-strategy block of the metrics. */
  datatype StrategyStats = StrategyStats(
    strategy: string, trades: nat, winRate: real, profitFactor: ExtReal,
    netPnl: real, commission: real, slippage: real)

  /** The closed slices attributed to a strategy, in order. */
  function TradesOf(c: seq<ClosedTrade>, s: string): (r: seq<ClosedTrade>)
    ensures forall t :: t in r ==> t in c && t.strategy == s
    ensures |r| <= |c|
  {
    if c == [] then []
    else TradesOf(c[..|c| - 1], s) + (if c[|c| - 1].strategy == s then [c[|c| - 1]] else [])
  }

  /** The keys of strat_map in insertion order. */
  function StrategiesOf(c: seq<ClosedTrade>): (s: seq<string>)
    ensures Distinct(s)
  {
    if c == [] then []
    else
      var prev := StrategiesOf(c[..|c| - 1]);
      var x := c[|c| - 1].strategy;
      if x in prev then prev else prev + [x]
  }

  function StatsOf(s: string, trades: seq<ClosedTrade>): (r: StrategyStats)
    requires trades != []
    ensures r.strategy == s && r.trades == |trades|
  {
    var pnls := Nets(trades);
    NetsLength(trades);
    StrategyStats(s, |trades|, |Wins(pnls)| as real / |pnls| as real,
                  Ratio(SumReal(Wins(pnls)), Abs(SumReal(Losses(pnls)))),
                  SumReal(pnls), SumCommission(trades), SumSlippage(trades))
  }

  lemma {:induction false} NetsLength(c: seq<ClosedTrade>)
    ensures |Nets(c)| == |c|
  {
    if c != [] {
      NetsLength(c[..|c| - 1]);
    }
  }

  /** A strategy that never appears has no trades. */
  lemma {:induction false} UnseenStrategyHasNoTrades(c: seq<ClosedTrade>, s: string)
    requires s !in StrategiesOf(c)
    ensures TradesOf(c, s) == []
  {
    if c != [] {
      var prev := StrategiesOf(c[..|c| - 1]);
      assert s !in prev;
      UnseenStrategyHasNoTrades(c[..|c| - 1], s);
    }
  }

  lemma {:induction false} SeenStrategyHasTrades(c: seq<ClosedTrade>, s: string)
    requires s in StrategiesOf(c)
    ensures TradesOf(c, s) != []
  {
    if c != [] {
      var prev := StrategiesOf(c[..|c| - 1]);
      if s in prev {
        SeenStrategyHasTrades(c[..|c| - 1], s);
      }
    }
  }

  /** The per-strategy stats over the given strategies. */
  function StatsOver(c: seq<ClosedTrade>, keys: seq<string>): (r: seq<StrategyStats>)
    requires forall k :: k in keys ==> TradesOf(c, k) != []
    ensures |r| == |keys|
  {
    if keys == [] then []
    else StatsOver(c, keys[..|keys| - 1]) + [StatsOf(keys[|keys| - 1], TradesOf(c, keys[|keys| - 1]))]
  }

  function PerStrategy(c: seq<ClosedTrade>): seq<StrategyStats> {
    var keys := StrategiesOf(c);
    assert forall k :: k in keys ==> TradesOf(c, k) != [] by {
      forall k | k in keys ensures TradesOf(c, k) != [] { SeenStrategyHasTrades(c, k); }
    }
    StatsOver(c, keys)
  }

  function TradeCount(stats: seq<StrategyStats>): int {
    if stats == [] then 0 else TradeCount(stats[..|stats| - 1]) + stats[|stats| - 1].trades
  }

  /** Adding one slice to the log adds one to the count of its own strategy's block and
      nothing to the others. */
  lemma {:induction false} CountGrowsByOne(c: seq<ClosedTrade>, t: ClosedTrade, keys: seq<string>)
    requires Distinct(keys)
    requires forall k :: k in keys ==> TradesOf(c, k) != []
    ensures forall k :: k in keys ==> TradesOf(c + [t], k) != []
    ensures TradeCount(StatsOver(c + [t], keys)) == TradeCount(StatsOver(c, keys)) + (if t.strategy in keys then 1 else 0)
  {
    assert (c + [t])[..|c|] == c;
    forall k | k in keys ensures TradesOf(c + [t], k) != [] {
      assert |TradesOf(c + [t], k)| >= |TradesOf(c, k)|;
    }
    if keys != [] {
      var init := keys[..|keys| - 1];
      assert Distinct(init);
      assert forall k :: k in init ==> k in keys;
      CountGrowsByOne(c, t, init);
      assert StatsOver(c + [t], keys)[..|keys| - 1] == StatsOver(c + [t], init);
      assert StatsOver(c, keys)[..|keys| - 1] == StatsOver(c, init);
      if t.strategy == keys[|keys| - 1] {
        assert t.strategy !in init;
      }
    }
  }

  /** The per-strategy trade counts add up to the total number of closed slices. */
  lemma {:induction false} PerStrategyCountsSum(c: seq<ClosedTrade>)
    ensures TradeCount(PerStrategy(c)) == |c|
  {
    if c != [] {
      var init := c[..|c| - 1];
      var t := c[|c| - 1];
      assert init + [t] == c;
      var keys := StrategiesOf(init);
      forall k | k in keys ensures TradesOf(init, k) != [] { SeenStrategyHasTrades(init, k); }
      PerStrategyCountsSum(init);
      assert PerStrategy(init) == StatsOver(init, keys);
      CountGrowsByOne(init, t, keys);
      if t.strategy !in keys {
        UnseenStrategyHasNoTrades(init, t.strategy);
        var all := keys + [t.strategy];
        assert StrategiesOf(c) == all;
        assert all[..|all| - 1] == keys;
        assert StatsOver(c, all)[..|keys|] == StatsOver(c, keys);
        assert |TradesOf(c, t.strategy)| == 1;
        assert TradeCount(StatsOver(c, all)) == TradeCount(StatsOver(c, keys)) + 1;
      } else {
        assert StrategiesOf(c) == keys;
      }
    }
  }

  /** The metrics dict, for a log with at least one closed slice. */
  datatype Metrics = Metrics(
    totalTrades: nat, winRate: real, profitFactor: ExtReal, expectancy: real,
    avgWin: real, avgLoss: real, grossPnl: real, totalCommission: real,
    totalSlippage: real, netPnl: real, perStrategy: seq<StrategyStats>)

  /** The three outcomes of _analyze_trades: no rows at all, rows but nothing closed, or metrics. */
  datatype Analysis = NoRows | NoClosedTrades | Analysed(metrics: Metrics)

  /** Wins over all slices. */
  function WinRate(pnls: seq<real>): (r: real)
    requires pnls != []
    ensures 0.0 <= r <= 1.0
  {
    WinsAndLossesPartition(pnls);
    RatioAtMostOne(|Wins(pnls)|, |pnls|);
    |Wins(pnls)| as real / |pnls| as real
  }

  lemma RatioAtMostOne(a: nat, b: nat)
    requires a <= b && b > 0
    ensures 0.0 <= a as real / b as real <= 1.0
  {
  }

  /** Gross profit over the absolute gross loss, +inf without any loss value. */
  function ProfitFactor(pnls: seq<real>): (r: ExtReal)
    ensures r == PosInf <==> SumReal(Losses(pnls)) == 0.0
  {
    Ratio(SumReal(Wins(pnls)), Abs(SumReal(Losses(pnls))))
  }

  /** win_rate * avg_win + (1 - win_rate) * avg_loss. */
  function Expectancy(pnls: seq<real>): real
    requires pnls != []
  {
    WinRate(pnls) * Mean(Wins(pnls)) + (1.0 - WinRate(pnls)) * Mean(Losses(pnls))
  }

  function Summarise(c: seq<ClosedTrade>): (m: Metrics)
    requires c != [] && forall t :: t in c ==> Consistent(t)
    ensures m.totalTrades == |c| && 0.0 <= m.winRate <= 1.0
    ensures m.profitFactor == PosInf <==> SumReal(Losses(Nets(c))) == 0.0
    ensures m.netPnl == m.grossPnl - m.totalCommission
    ensures TradeCount(m.perStrategy) == m.totalTrades
  {
    var pnls := Nets(c);
    NetsLength(c);
    NetIsGrossLessCommission(c);
    PerStrategyCountsSum(c);
    Metrics(|pnls|, WinRate(pnls), ProfitFactor(pnls), Expectancy(pnls), Mean(Wins(pnls)), Mean(Losses(pnls)),
            SumGross(c), SumCommission(c), SumSlippage(c), SumReal(pnls), PerStrategy(c))
  }

  function AnalysisOf(rows: seq<ReportRow>): Analysis {
    if rows == [] then NoRows
    else
      var c := ClosedTrades(rows);
      if c == [] then NoClosedTrades else Analysed(Summarise(c))
  }

  /** The decomposition example: buy 1 at 10000 (commission 10, slip 5) then sell 1 at 11000
      (commission 11, slip 5). */
  const ExampleBuy := ReportRow("BTC", "buy", 1.0, 10000.0, 10.0, 5.0, "Test")
  const ExampleSell := ReportRow("BTC", "sell", 1.0, 11000.0, 11.0, 5.0, "Test")

  /** The buy opens one long lot; the sell closes all of it in one slice. */
  lemma ExampleRows()
    ensures ApplyRow(EmptyBook, ExampleBuy) == RowResult(Book([Lot(1.0, 10000.0, "Test", 10.0, 5.0)], []), [])
    ensures ApplyRow(Book([Lot(1.0, 10000.0, "Test", 10.0, 5.0)], []), ExampleSell)
            == RowResult(Book([], []), [ClosedTrade(1000.0, 979.0, 21.0, 10.0, "Test")])
  {
    var lot := Lot(1.0, 10000.0, "Test", 10.0, 5.0);
    assert MatchLots(1.0, [], 10000.0, 10.0, 5.0, false) == MatchResult([], [], 1.0);
    assert [lot][1..] == [];
    assert MatchLots(0.0, [], 11000.0, 11.0, 5.0, true) == MatchResult([], [], 0.0);
    assert MatchLots(1.0, [lot], 11000.0, 11.0, 5.0, true)
           == MatchResult([ClosedTrade(1000.0, 979.0, 21.0, 10.0, "Test")], [], 0.0);
  }

  lemma ExampleSymbols()
    ensures Symbols([ExampleBuy, ExampleSell]) == ["BTC"]
  {
    assert [ExampleBuy, ExampleSell][..1] == [ExampleBuy];
    assert [ExampleBuy][..0] == [];
    assert Symbols([]) == [];
    assert Symbols([ExampleBuy]) == ["BTC"];
  }

  lemma ExampleReplay()
    ensures Replay([ExampleBuy, ExampleSell], "BTC").closed == [ClosedTrade(1000.0, 979.0, 21.0, 10.0, "Test")]
  {
    ExampleRows();
    assert [ExampleBuy, ExampleSell][..1] == [ExampleBuy];
    assert [ExampleBuy][..0] == [];
    assert Replay([], "BTC") == RowResult(EmptyBook, []);
    assert Replay([ExampleBuy], "BTC") == ApplyRow(EmptyBook, ExampleBuy);
  }

  /** The log closes exactly one slice: gross 1000, commission 21, slippage 10, net 979. */
  lemma ExampleClosedTrades()
    ensures ClosedTrades([ExampleBuy, ExampleSell]) == [ClosedTrade(1000.0, 979.0, 21.0, 10.0, "Test")]
  {
    ExampleSymbols();
    ExampleReplay();
    assert ["BTC"][..0] == [];
    assert ClosedOver([ExampleBuy, ExampleSell], []) == [];
  }

  lemma PnlBreakdownExample()
    ensures var a := AnalysisOf([ExampleBuy, ExampleSell]);
            && a.Analysed?
            && a.metrics.grossPnl == 1000.0 && a.metrics.totalCommission == 21.0
            && a.metrics.totalSlippage == 10.0 && a.metrics.netPnl == 979.0
  {
    var t := ClosedTrade(1000.0, 979.0, 21.0, 10.0, "Test");
    ExampleClosedTrades();
    assert [t][..0] == [];
    assert SumGross([t]) == SumGross([]) + 1000.0;
    assert SumCommission([t]) == SumCommission([]) + 21.0;
    assert SumSlippage([t]) == SumSlippage([]) + 10.0;
    assert Nets([t]) == [979.0];
    assert [979.0][..0] == [];
    assert SumReal([979.0]) == 979.0;
    var m := Summarise([t]);
    assert m.grossPnl == 1000.0 && m.totalCommission == 21.0 && m.totalSlippage == 10.0 && m.netPnl == 979.0;
  }

  // ---------------------------------------------------------------- the imperative analysis

  /** The matching loop's invariant survives one turn. */
  lemma MatchLoopStep(closed: seq<ClosedTrade>, remaining: real, stack: seq<Lot>, price: real, unitComm: real,
                      unitSlip: real, closingLong: bool, goal: MatchResult, m: real, next: seq<Lot>)
    requires remaining > 0.0 && stack != [] && m == MinReal(remaining, stack[0].qty)
    requires next == if stack[0].qty > m then [stack[0].(qty := stack[0].qty - m)] + stack[1..] else stack[1..]
    requires Prepend(closed, MatchLots(remaining, stack, price, unitComm, unitSlip, closingLong)) == goal
    ensures Prepend(closed + [CloseTrade(stack[0], m, price, unitComm, unitSlip, closingLong)],
                    MatchLots(remaining - m, next, price, unitComm, unitSlip, closingLong)) == goal
  {
    var t := CloseTrade(stack[0], m, price, unitComm, unitSlip, closingLong);
    var s := MatchLots(remaining - m, next, price, unitComm, unitSlip, closingLong);
    MatchLotsStep(remaining, stack, price, unitComm, unitSlip, closingLong, m, next);
    assert closed + [t] + s.closed == closed + ([t] + s.closed);
  }

  /** The while loop that consumes lots from the front of a stack. */
  method MatchAgainst(stack: seq<Lot>, remaining: real, price: real, unitComm: real, unitSlip: real,
                      closingLong: bool) returns (r: MatchResult)
    ensures r == MatchLots(remaining, stack, price, unitComm, unitSlip, closingLong)
  {
    var goal := MatchLots(remaining, stack, price, unitComm, unitSlip, closingLong);
    var st := stack;
    var rem := remaining;
    var closed: seq<ClosedTrade> := [];
    while rem > 0.0 && st != []
      invariant Prepend(closed, MatchLots(rem, st, price, unitComm, unitSlip, closingLong)) == goal
      decreases |st| + (if rem > 0.0 then 1 else 0)
    {
      var lot := st[0];
      var rest := st[1..];
      var matched := MinReal(rem, lot.qty);
      var t := CloseTrade(lot, matched, price, unitComm, unitSlip, closingLong);
      ghost var before := closed;
      ghost var st0 := st;
      ghost var rem0 := rem;
      closed := closed + [t];
      rem := rem - matched;
      st := rest;
      if lot.qty > matched {
        st := [lot.(qty := lot.qty - matched)] + st;
      }
      MatchLoopStep(before, rem0, st0, price, unitComm, unitSlip, closingLong, goal, matched, st);
    }
    r := MatchResult(closed, st, rem);
  }

  /** One iteration of the per-row loop. */
  method ProcessRow(book: Book, row: ReportRow) returns (r: RowResult)
    ensures r == ApplyRow(book, row)
  {
    var unitComm := if row.qty > 0.0 then row.commission / row.qty else 0.0;
    var longStack := book.longs;
    var shortStack := book.shorts;
    var closed: seq<ClosedTrade> := [];
    if row.side == "buy" || row.side == "cover" {
      var m := MatchAgainst(shortStack, row.qty, row.fillPrice, unitComm, row.slip, false);
      closed := m.closed;
      shortStack := m.stack;
      if m.remaining > 0.0 {
        longStack := longStack + [Lot(m.remaining, row.fillPrice, row.strategyId, unitComm, row.slip)];
      }
    } else if row.side == "sell" {
      var m := MatchAgainst(longStack, row.qty, row.fillPrice, unitComm, row.slip, true);
      closed := m.closed;
      longStack := m.stack;
      if m.remaining > 0.0 {
        shortStack := shortStack + [Lot(m.remaining, row.fillPrice, row.strategyId, unitComm, row.slip)];
      }
    } else if row.side == "short" {
      shortStack := shortStack + [Lot(row.qty, row.fillPrice, row.strategyId, unitComm, row.slip)];
    }
    r := RowResult(Book(longStack, shortStack), closed);
  }

  /** The loop over one symbol's group. */
  method AnalyzeSymbol(rows: seq<ReportRow>, symbol: string) returns (r: RowResult)
    ensures r == Replay(rows, symbol)
  {
    var book := EmptyBook;
    var closed: seq<ClosedTrade> := [];
    for i := 0 to |rows|
      invariant RowResult(book, closed) == Replay(rows[..i], symbol)
    {
      assert rows[..i + 1][..i] == rows[..i];
      if rows[i].symbol == symbol {
        var a := ProcessRow(book, rows[i]);
        book := a.book;
        closed := closed + a.closed;
      }
    }
    assert rows[..|rows|] == rows;
    r := RowResult(book, closed);
  }

  /** strat_map: closed slices grouped by the opening lot's strategy, keys in insertion order. */
  method GroupByStrategy(c: seq<ClosedTrade>) returns (keys: seq<string>, groups: map<string, seq<ClosedTrade>>)
    ensures keys == StrategiesOf(c)
    ensures forall k :: k in groups <==> k in keys
    ensures forall k :: k in groups ==> groups[k] == TradesOf(c, k)
  {
    keys := [];
    groups := map[];
    for i := 0 to |c|
      invariant keys == StrategiesOf(c[..i])
      invariant forall k :: k in groups <==> k in keys
      invariant forall k :: k in groups ==> groups[k] == TradesOf(c[..i], k)
      invariant forall k :: k !in groups ==> TradesOf(c[..i], k) == []
    {
      assert c[..i + 1][..i] == c[..i];
      var s := c[i].strategy;
      if s !in groups {
        keys := keys + [s];
        groups := groups[s := []];
      }
      groups := groups[s := groups[s] + [c[i]]];
    }
    assert c[..|c|] == c;
  }

  /** _analyze_trades, for the trade metrics it returns. */
  method AnalyzeTrades(rows: seq<ReportRow>) returns (a: Analysis)
    ensures a == AnalysisOf(rows)
  {
    if rows == [] {
      return NoRows;
    }
    var closed := CollectClosed(rows);
    if closed == [] {
      return NoClosedTrades;
    }
    var stats := StrategyBreakdown(closed);
    var m := Summarise(closed);
    a := Analysed(m.(perStrategy := stats));
  }

  /** The loop over the symbols: every symbol's round trips, symbol by symbol. */
  method CollectClosed(rows: seq<ReportRow>) returns (closed: seq<ClosedTrade>)
    ensures closed == ClosedTrades(rows)
  {
    var symbols := Symbols(rows);
    closed := [];
    for k := 0 to |symbols|
      invariant closed == ClosedOver(rows, symbols[..k])
    {
      assert symbols[..k + 1][..k] == symbols[..k];
      var r := AnalyzeSymbol(rows, symbols[k]);
      closed := closed + r.closed;
    }
    assert symbols[..|symbols|] == symbols;
  }

  /** The groupby over strategy_id: one stats row per strategy, in order of first appearance. */
  method StrategyBreakdown(closed: seq<ClosedTrade>) returns (stats: seq<StrategyStats>)
    ensures stats == PerStrategy(closed)
  {
    var keys, groups := GroupByStrategy(closed);
    stats := [];
    SeenHaveTrades(closed);
    for j := 0 to |keys|
      invariant stats == StatsOver(closed, keys[..j])
    {
      assert keys[..j + 1][..j] == keys[..j];
      stats := stats + [StatsOf(keys[j], groups[keys[j]])];
    }
    assert keys[..|keys|] == keys;
  }

  lemma SeenHaveTrades(c: seq<ClosedTrade>)
    ensures forall k :: k in StrategiesOf(c) ==> TradesOf(c, k) != []
  {
    forall k | k in StrategiesOf(c) ensures TradesOf(c, k) != [] { SeenStrategyHasTrades(c, k); }
  }
}
