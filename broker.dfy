/** The immediate-fill broker (core/broker.py): slippage, commission, side -> signed
    delta, rejections, and the append-only trade log. */
module Execution {
  import opened Wrappers
  import opened Ledger

  datatype Side = Buy | Sell | Short | Cover

  /** The side strings the broker understands; anything else is an invalid side. */
  function ParseSide(s: string): (r: Option<Side>)
    ensures r == Some(Buy) <==> s == "buy"
    ensures r == Some(Sell) <==> s == "sell"
    ensures r == Some(Short) <==> s == "short"
    ensures r == Some(Cover) <==> s == "cover"
  {
    if s == "buy" then Some(Buy)
    else if s == "sell" then Some(Sell)
    else if s == "short" then Some(Short)
    else if s == "cover" then Some(Cover)
    else None
  }

  function SideName(side: Side): (s: string)
    ensures ParseSide(s) == Some(side)
  {
    match side
    case Buy => "buy"
    case Sell => "sell"
    case Short => "short"
    case Cover => "cover"
  }

  /** Buy and cover pay up; every other side string (sell, short, or an invalid one) receives less. */
  function ExecPrice(side: string, price: real, slippage: real): (r: real)
    ensures slippage >= 0.0 && price >= 0.0 && (side == "buy" || side == "cover") ==> r >= price
    ensures slippage >= 0.0 && price >= 0.0 && !(side == "buy" || side == "cover") ==> r <= price
    ensures slippage == 0.0 ==> r == price
  {
    if side == "buy" || side == "cover" then price * (1.0 + slippage) else price * (1.0 - slippage)
  }

  /** Commission on the filled notional. */
  function Commission(qty: real, execPrice: real, rate: real): real {
    qty * execPrice * rate
  }

  /** Signed quantity change: buy/cover add, sell/short subtract. */
  function Delta(side: Side, qty: real): (d: real)
    ensures side == Buy || side == Cover ==> d == qty
    ensures side == Sell || side == Short ==> d == -qty
  {
    match side
    case Buy => qty
    case Cover => qty
    case Sell => -qty
    case Short => -qty
  }

  datatype TradeRecord = TradeRecord(
    timestamp: int, symbol: string, side: Side, qty: real,
    price: real, commission: real, strategyId: string)

  datatype Rejection = NonPositiveQty | InvalidSide(side: string) | InsufficientLong

  datatype ExecResult = Rejected(reason: Rejection) | Filled(record: TradeRecord)

  /** Why execute_order would reject, in the order the source checks; None means it fills. */
  function RejectionFor(side: string, qty: real, held: real): (r: Option<Rejection>)
    ensures r.None? <==> qty > 0.0 && ParseSide(side).Some? && !(ParseSide(side) == Some(Sell) && held < qty)
    ensures ParseSide(side) == Some(Cover) && qty > 0.0 ==> r.None?
  {
    if qty <= 0.0 then Some(NonPositiveQty)
    else if ParseSide(side).None? then Some(InvalidSide(side))
    else if ParseSide(side) == Some(Sell) && held < qty then Some(InsufficientLong)
    else None
  }

  /** execute_order on a copy of the ledger: the outcome, and the ledger after it. A rejection
      changes nothing; a fill prices the order with slippage, charges the commission on the
      filled notional and updates the position through update_position. */
  function ExecuteOn(b: Book, symbol: string, side: string, qty: real, price: real, timestamp: int,
                     slippage: real, rate: real, strategyId: string): (r: (ExecResult, Book))
    requires BookValid(b)
    ensures BookValid(r.1)
    ensures r.0.Rejected? <==> RejectionFor(side, qty, PositionIn(b, symbol).qty).Some?
    ensures r.0.Rejected? ==> r.1 == b
    ensures r.0.Filled? ==>
      var px := ExecPrice(side, price, slippage);
      && r.0.record == TradeRecord(timestamp, symbol, ParseSide(side).value, qty, px, Commission(qty, px, rate), strategyId)
      && PositionIn(r.1, symbol) == Fill(PositionIn(b, symbol), Delta(r.0.record.side, qty), px)
      && r.1.positions - {symbol} == b.positions - {symbol}
  {
    var rejection := RejectionFor(side, qty, PositionIn(b, symbol).qty);
    if rejection.Some? then (Rejected(rejection.value), b)
    else
      var px := ExecPrice(side, price, slippage);
      var fee := Commission(qty, px, rate);
      var parsed := ParseSide(side).value;
      (Filled(TradeRecord(timestamp, symbol, parsed, qty, px, fee, strategyId)), Updated(b, symbol, Delta(parsed, qty), px, fee))
  }

  /** A fill pays the signed notional at the executed price plus the commission. */
  lemma FillPaysNotional(b: Book, symbol: string, side: string, qty: real, price: real, timestamp: int,
                         slippage: real, rate: real, strategyId: string)
    requires BookValid(b)
    requires ExecuteOn(b, symbol, side, qty, price, timestamp, slippage, rate, strategyId).0.Filled?
    ensures var r := ExecuteOn(b, symbol, side, qty, price, timestamp, slippage, rate, strategyId);
            r.1.cash == b.cash - r.0.record.commission - Delta(r.0.record.side, qty) * r.0.record.price
  {
  }

  class Broker {
    const portfolio: Portfolio
    const commissionRate: real
    var trades: seq<TradeRecord>

    ghost predicate Valid()
      reads this, portfolio
    {
      portfolio.Valid()
    }

    constructor (portfolio: Portfolio, commissionRate: real)
      requires portfolio.Valid()
      ensures Valid() && this.portfolio == portfolio && this.commissionRate == commissionRate
      ensures trades == []
    {
      this.portfolio := portfolio;
      this.commissionRate := commissionRate;
      trades := [];
    }

    /** execute_order: reject without any change, or fill through update_position once and log one record. */
    method ExecuteOrder(symbol: string, side: string, qty: real, price: real, timestamp: int,
                        slippage: real, strategyId: string) returns (r: ExecResult)
      requires Valid()
      modifies this, portfolio
      ensures Valid()
      ensures r.Rejected? <==> RejectionFor(side, qty, old(portfolio.GetPosition(symbol)).qty).Some?
      ensures r.Rejected? ==> r.reason == RejectionFor(side, qty, old(portfolio.GetPosition(symbol)).qty).value
      ensures r.Rejected? ==>
        trades == old(trades) && portfolio.cash == old(portfolio.cash)
        && portfolio.positions == old(portfolio.positions) && portfolio.order == old(portfolio.order)
      ensures r.Filled? ==>
        var px := ExecPrice(side, price, slippage);
        var fee := Commission(qty, px, commissionRate);
        var d := Delta(ParseSide(side).value, qty);
        && r.record == TradeRecord(timestamp, symbol, ParseSide(side).value, qty, px, fee, strategyId)
        && trades == old(trades) + [r.record]
        && portfolio.cash == old(portfolio.cash) - fee - d * px
        && portfolio.GetPosition(symbol) == Fill(old(portfolio.GetPosition(symbol)), d, px)
        && portfolio.positions - {symbol} == old(portfolio.positions) - {symbol}
      ensures (r, portfolio.Snapshot()) ==
        ExecuteOn(old(portfolio.Snapshot()), symbol, side, qty, price, timestamp, slippage, commissionRate, strategyId)
    {
      if qty <= 0.0 {
        return Rejected(NonPositiveQty);
      }

      var execPrice := ExecPrice(side, price, slippage);
      var commission := Commission(qty, execPrice, commissionRate);

      // buy/cover -> +qty, sell/short -> -qty, anything else is rejected
      var parsed := ParseSide(side);
      if parsed.None? {
        return Rejected(InvalidSide(side));
      }
      var qtyDelta := Delta(parsed.value, qty);

      var currentPos := portfolio.GetPosition(symbol);
      if parsed.value == Sell && currentPos.qty < qty {
        return Rejected(InsufficientLong);
      }
      // a cover is never size-checked: the source's check there is a no-op

      portfolio.UpdatePosition(symbol, qtyDelta, execPrice, commission);
      var record := TradeRecord(timestamp, symbol, parsed.value, qty, execPrice, commission, strategyId);
      trades := trades + [record];
      r := Filled(record);
    }
  }

  /** Closing a long with a sell, or a short with a cover, for the full |qty| always fills and leaves the symbol flat. */
  lemma FullCloseFlattens(pos: Position, px: real)
    requires pos.qty != 0.0
    ensures var side := if pos.qty > 0.0 then "sell" else "cover";
            && RejectionFor(side, Abs(pos.qty), pos.qty).None?
            && Fill(pos, Delta(ParseSide(side).value, Abs(pos.qty)), px) == Flat
  {
    var side := if pos.qty > 0.0 then "sell" else "cover";
    assert ParseSide(side) == if pos.qty > 0.0 then Some(Sell) else Some(Cover);
    assert pos.qty + Delta(ParseSide(side).value, Abs(pos.qty)) == 0.0;
  }
}
