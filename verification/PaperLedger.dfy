/** The local paper account (apps/api/app/execution/paper_engine.py): orders, position
    snapshots, account snapshots and closed trades, each table in the order it was written.
    A refusal leaves the tables as they were, because the caller's transaction rolls back. */
module PaperLedger {
  import opened Decimals
  import opened Outcomes
  import opened PaperPolicy

  type OrderId = nat

  const STARTING_CASH: real := 100000.0
  const MAX_QUANTITY: real := 999999999999.99999999

  /** Where an average cost is kept between two fills: in the session that computed it, or in
      its Numeric(20, 8) column, which rounds it half away from zero. */
  datatype Column = InSession | Numeric8

  datatype Status = OrderRejected | PartiallyFilled | Filled

  datatype Order = Order(
    ticker: string, side: Side, quantity: real, status: Status,
    filled: real, avgFill: Option<real>, fee: real, cashUsed: Option<real>)

  datatype PositionRow = PositionRow(
    ticker: string, previous: real, quantity: real, avg: real, current: real, unrealized: real,
    available: Option<real>, opener: Option<OrderId>, source: OrderId, side: Side)

  datatype AccountRow = AccountRow(total: real, cash: real, invested: real, result: real)

  datatype TradeRow = TradeRow(
    ticker: string, opener: Option<OrderId>, closer: OrderId, quantity: real,
    openPrice: real, closePrice: real, realized: real)

  datatype Ledger = Ledger(
    orders: map<OrderId, Order>, positions: seq<PositionRow>,
    accounts: seq<AccountRow>, trades: seq<TradeRow>)

  const EmptyLedger := Ledger(map[], [], [], [])

  datatype Body = Body(
    ticker: string, side: Side, quantity: Option<real>, notional: Option<real>,
    estimatedPrice: real, profile: Profile)

  /** What the risk checks other than the cash guard say: those run before it (kill switch,
      trading gate) and those after it (duplicates, loss limits, position limits). */
  datatype Risk = Risk(before: bool, after: bool)

  /** What a caller may ask. `halted` is the kill switch as read, None when the settings row is missing. */
  datatype Command =
    | Place(id: OrderId, body: Body, risk: Risk)
    | FollowUp(id: OrderId, quantity: real, estimatedPrice: real, halted: Option<bool>)

  // ---------------------------------------------------------------- reading the tables

  function Latest(rows: seq<PositionRow>, ticker: string): Option<PositionRow> {
    if rows == [] then None
    else if rows[|rows| - 1].ticker == ticker then Some(rows[|rows| - 1])
    else Latest(rows[..|rows| - 1], ticker)
  }

  function CashAfter(accounts: seq<AccountRow>): real {
    if accounts == [] then STARTING_CASH else accounts[|accounts| - 1].cash
  }

  function Sellable(position: Option<PositionRow>): real {
    if position.None? then 0.0
    else if position.value.available.None? then position.value.quantity
    else Min(position.value.quantity, position.value.available.value)
  }

  function Owned(position: Option<PositionRow>): real {
    if position.None? then 0.0 else position.value.quantity
  }

  /** Sum of `f` over the newest row of each ticker, newest first, as the source's
      dictionary of latest snapshots is filled; `seen` are the tickers already taken. */
  function Total(rows: seq<PositionRow>, seen: set<string>, f: PositionRow -> real): real {
    if rows == [] then 0.0
    else
      var r := rows[|rows| - 1];
      (if r.ticker in seen then 0.0 else f(r)) + Total(rows[..|rows| - 1], seen + {r.ticker}, f)
  }

  function CostBasis(r: PositionRow): real { Times(r.quantity, r.avg) }

  function MarketValue(r: PositionRow): real { Times(r.quantity, r.current) }

  function Unrealized(r: PositionRow): real { r.unrealized }

  function Realized(trades: seq<TradeRow>): real {
    if trades == [] then 0.0
    else Realized(trades[..|trades| - 1]) + trades[|trades| - 1].realized
  }

  // ---------------------------------------------------------------- one fill

  function HalfUp8(x: real): (r: real)
    ensures -HALF_QUANTUM <= r - x <= HALF_QUANTUM
    ensures x >= 0.0 ==> r >= 0.0
  {
    if x >= 0.0 then (x * 100000000.0 + 0.5).Floor as real / 100000000.0
    else -((0.5 - x * 100000000.0).Floor as real / 100000000.0)
  }

  function Kept(column: Column, avg: real): real {
    if column.InSession? then avg else HalfUp8(avg)
  }

  function Opener(previous: Option<PositionRow>, side: Side, id: OrderId): Option<OrderId> {
    if previous.Some? && previous.value.quantity > 0.0 then
      if previous.value.opener.Some? && (side.Sell? || previous.value.opener.value == id)
      then previous.value.opener else None
    else if side.Buy? then Some(id) else None
  }

  function CashDelta(side: Side, d: Decision): real
    requires d.Fill?
  {
    if side.Buy? then -(Times(d.price, d.quantity) + d.fee) else Times(d.price, d.quantity) - d.fee
  }

  /** The average cost after the fill, before it is written to its column. */
  function NewAverage(previous: Option<PositionRow>, side: Side, d: Decision): real
    requires d.Fill?
  {
    var avg := if previous.None? then d.price else previous.value.avg;
    if side.Sell? then avg
    else if Owned(previous) + d.quantity > 0.0 then
      (Times(Owned(previous), avg) + Times(d.price, d.quantity) + d.fee) / (Owned(previous) + d.quantity)
    else d.price
  }

  function FilledRow(
    column: Column, previous: Option<PositionRow>, id: OrderId, ticker: string, side: Side,
    d: Decision
  ): PositionRow
    requires d.Fill?
  {
    var signed := if side.Buy? then d.quantity else -d.quantity;
    var avg := NewAverage(previous, side, d);
    PositionRow(
      ticker, Owned(previous), Owned(previous) + signed, Kept(column, avg), d.quote,
      Round8(Times(d.quote - avg, Owned(previous) + signed)),
      Some(Sellable(previous) + signed), Opener(previous, side, id), id, side)
  }

  function ClosedTrade(previous: Option<PositionRow>, id: OrderId, ticker: string, d: Decision): TradeRow
    requires d.Fill?
  {
    var avg := if previous.None? then d.price else previous.value.avg;
    TradeRow(ticker, Opener(previous, Sell, id), id, d.quantity, avg, d.price,
             Round8(Times(d.price - avg, d.quantity) - d.fee))
  }

  function AccountAfter(cash: real, positions: seq<PositionRow>): AccountRow {
    var invested := Round8(Total(positions, {}, MarketValue));
    var total := Round8(cash + invested);
    AccountRow(total, cash, invested, Round8(total - STARTING_CASH))
  }

  function ApplyFill(column: Column, l: Ledger, id: OrderId, ticker: string, side: Side, d: Decision): Result<Ledger>
    requires d.Fill?
  {
    var previous := Latest(l.positions, ticker);
    var cash := Round8(CashAfter(l.accounts) + CashDelta(side, d));
    if side.Sell? && d.quantity > Sellable(previous) then Refused("paper_oversell_block")
    else if cash < 0.0 then Refused("paper_cash_guard")
    else
      var positions := l.positions + [FilledRow(column, previous, id, ticker, side, d)];
      Ok(l.(positions := positions,
            accounts := l.accounts + [AccountAfter(cash, positions)],
            trades := if side.Sell? then l.trades + [ClosedTrade(previous, id, ticker, d)] else l.trades))
  }

  // ---------------------------------------------------------------- the two entry points

  function AskedQuantity(body: Body): real {
    if body.quantity.Some? then Trunc8(body.quantity.value)
    else if body.notional.Some? && body.estimatedPrice > 0.0 then
      Trunc8(body.notional.value / body.estimatedPrice)
    else 0.0
  }

  /** The per-share price the cash guard is given. */
  function RiskPrice(side: Side, d: Decision): real {
    if d.Rejected? then d.quote
    else if side.Buy? && d.quantity > 0.0 then (Times(d.price, d.quantity) + d.fee) / d.quantity
    else d.price
  }

  function NewOrder(body: Body, quantity: real, d: Decision): Order {
    if d.Rejected? then
      Order(body.ticker, body.side, quantity, OrderRejected, 0.0, None, 0.0,
            if body.side.Buy? then Some(0.0) else None)
    else
      Order(body.ticker, body.side, quantity, if d.whole then Filled else PartiallyFilled,
            d.quantity, Some(d.price), d.fee,
            if body.side.Buy? then Some(Round8(Times(d.price, d.quantity) + d.fee)) else None)
  }

  function Execute(column: Column, l: Ledger, id: OrderId, body: Body, risk: Risk): Result<Ledger> {
    var quantity := AskedQuantity(body);
    if quantity <= 0.0 || quantity > MAX_QUANTITY then Refused("paper_quantity_range")
    else if body.side.Sell? && quantity > Sellable(Latest(l.positions, body.ticker)) then
      Refused("paper_oversell_block")
    else
      var d := Evaluate(body.side, quantity, body.estimatedPrice, body.profile);
      if !risk.before then Refused("risk_block")
      else if body.side.Buy? && Times(quantity, RiskPrice(body.side, d)) > CashAfter(l.accounts) then
        Refused("cash_guard_block")
      else if !risk.after then Refused("risk_block")
      else if id in l.orders then Refused("duplicate_order_id")
      else
        var recorded := l.(orders := l.orders[id := NewOrder(body, quantity, d)]);
        if d.Rejected? then Ok(recorded)
        else ApplyFill(column, recorded, id, body.ticker, body.side, d)
  }

  function Remaining(o: Order): real { Max(0.0, o.quantity - o.filled) }

  function AfterFollowUp(o: Order, d: Decision): Order
    requires d.Fill? && o.filled + d.quantity != 0.0
  {
    var filled := o.filled + d.quantity;
    var avg := if o.avgFill.Some? then o.avgFill.value else d.price;
    o.(status := if o.quantity - filled == 0.0 then Filled else PartiallyFilled,
       filled := filled,
       avgFill := Some(Round8((Times(avg, o.filled) + Times(d.price, d.quantity)) / filled)),
       fee := Round8(o.fee + d.fee),
       cashUsed := if o.side.Buy?
                   then Some((if o.cashUsed.Some? then o.cashUsed.value else 0.0)
                             + Round8(Times(d.price, d.quantity) + d.fee))
                   else o.cashUsed)
  }

  function FillPartial(column: Column, l: Ledger, id: OrderId, asked: real, price: real, halted: Option<bool>): Result<Ledger> {
    if id !in l.orders || !l.orders[id].status.PartiallyFilled? then Refused("not_a_partial_order")
    else
      var o := l.orders[id];
      var quantity := Trunc8(asked);
      if quantity <= 0.0 || quantity > Remaining(o) then Refused("follow_up_quantity")
      else
        var d := Evaluate(o.side, quantity, price, Standard);
        if d.Rejected? || !d.whole || d.quantity != quantity then Refused("policy_did_not_fill")
        else if o.side.Buy? && Round8(Times(d.price, d.quantity) + d.fee) > CashAfter(l.accounts) then
          Refused("paper_cash_guard")
        else if o.quantity - (o.filled + d.quantity) < 0.0 || o.filled + d.quantity == 0.0 then
          Refused("follow_up_exceeds_remaining")
        else if halted != Some(false) then Refused("kill_switch")
        else
          var applied := ApplyFill(column, l, id, o.ticker, o.side, d);
          if applied.Refused? then applied
          else Ok(applied.value.(orders := l.orders[id := AfterFollowUp(o, d)]))
  }

  function Answer(column: Column, l: Ledger, c: Command): Result<Ledger> {
    match c
    case Place(id, body, risk) => Execute(column, l, id, body, risk)
    case FollowUp(id, quantity, price, halted) => FillPartial(column, l, id, quantity, price, halted)
  }

  function Step(column: Column, l: Ledger, c: Command): Ledger {
    var answer := Answer(column, l, c);
    if answer.Ok? then answer.value else l
  }

  /** The tables after any sequence of requests to a fresh account. */
  function Run(column: Column, commands: seq<Command>): Ledger {
    if commands == [] then EmptyLedger
    else Step(column, Run(column, commands[..|commands| - 1]), commands[|commands| - 1])
  }

  // ---------------------------------------------------------------- what every run keeps

  /** Shares moved by the fills of one order, read off the position rows. */
  function Increments(rows: seq<PositionRow>, id: OrderId): real {
    if rows == [] then 0.0
    else
      var r := rows[|rows| - 1];
      Increments(rows[..|rows| - 1], id)
      + (if r.source == id then Abs(r.quantity - r.previous) else 0.0)
  }

  function Fills(rows: seq<PositionRow>, id: OrderId): nat {
    if rows == [] then 0
    else Fills(rows[..|rows| - 1], id) + (if rows[|rows| - 1].source == id then 1 else 0)
  }

  /** Cash that left the account in the fills of one order, read off the account rows. */
  function CashTaken(rows: seq<PositionRow>, accounts: seq<AccountRow>, id: OrderId): real
    requires |rows| == |accounts|
  {
    if rows == [] then 0.0
    else
      var n := |rows| - 1;
      CashTaken(rows[..n], accounts[..n], id)
      + (if rows[n].source == id then CashAfter(accounts[..n]) - accounts[n].cash else 0.0)
  }

  /** The orders whose buys make up the open position: every buy since it was last empty. */
  function Openers(rows: seq<PositionRow>, ticker: string): set<OrderId> {
    if rows == [] then {}
    else
      var r := rows[|rows| - 1];
      var before := Openers(rows[..|rows| - 1], ticker);
      if r.ticker != ticker then before
      else (if r.previous > 0.0 then before else {}) + (if r.side.Buy? then {r.source} else {})
  }

  ghost predicate RowOk(r: PositionRow) {
    && 0.0 <= r.quantity && 0.0 <= r.avg && 0.0 <= r.previous
    && r.available.Some? && 0.0 <= r.available.value <= r.quantity
  }

  ghost predicate OrderOk(o: Order) {
    && 0.0 < o.quantity && 0.0 <= o.filled <= o.quantity
    && (o.status.Filled? <==> o.filled == o.quantity)
    && (o.status.OrderRejected? <==> o.filled == 0.0)
    && (o.side.Buy? <==> o.cashUsed.Some?)
  }

  ghost predicate OrderAgrees(l: Ledger, id: OrderId)
    requires id in l.orders && |l.positions| == |l.accounts|
  {
    var o := l.orders[id];
    && OrderOk(o)
    && o.filled == Increments(l.positions, id)
    && (o.side.Buy? ==>
          -QUANTUM * Fills(l.positions, id) as real
          <= o.cashUsed.value - CashTaken(l.positions, l.accounts, id)
          <= QUANTUM * Fills(l.positions, id) as real)
  }

  /** The opening order is named exactly when one order bought everything that is held. */
  ghost predicate OpenerAgrees(rows: seq<PositionRow>, ticker: string) {
    var p := Latest(rows, ticker);
    p.Some? && p.value.quantity > 0.0 ==>
      && Openers(rows, ticker) != {}
      && forall id: OrderId :: p.value.opener == Some(id) <==> Openers(rows, ticker) == {id}
  }
}
