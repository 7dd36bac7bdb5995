/** The engine as the source runs it: one object whose methods append to the tables and
    update an order's fields. Each method leaves the tables that PaperLedger specifies, and a
    refusal restores what it found, as the caller's transaction does. */
module PaperEngine {
  import opened Decimals
  import opened Outcomes
  import opened PaperPolicy
  import opened PaperLedger

  class Engine {
    const column: Column
    var orders: map<OrderId, Order>
    var positions: seq<PositionRow>
    var accounts: seq<AccountRow>
    var trades: seq<TradeRow>

    ghost function Tables(): Ledger
      reads this
    {
      Ledger(orders, positions, accounts, trades)
    }

    constructor (column: Column)
      ensures Tables() == EmptyLedger && this.column == column
    {
      this.column := column;
      orders, positions, accounts, trades := map[], [], [], [];
    }

    /** One pass from the newest snapshot back; the first seen of a ticker stands. */
    method LatestPositions() returns (latest: map<string, PositionRow>)
      ensures forall t: string :: (t in latest <==> Latest(positions, t).Some?)
                                  && (t in latest ==> latest[t] == Latest(positions, t).value)
    {
      latest := map[];
      var i := |positions|;
      assert positions[..i] == positions;
      while i > 0
        invariant 0 <= i <= |positions|
        invariant forall t: string ::
          Latest(positions, t) == if t in latest then Some(latest[t]) else Latest(positions[..i], t)
      {
        i := i - 1;
        assert positions[..i + 1][..i] == positions[..i];
        if positions[i].ticker !in latest {
          latest := latest[positions[i].ticker := positions[i]];
        }
      }
    }

    /** Market value of the latest snapshot of every ticker. */
    method Invested() returns (sum: real)
      ensures sum == Total(positions, {}, MarketValue)
    {
      sum := 0.0;
      var seen: set<string> := {};
      var i := |positions|;
      assert positions[..i] == positions;
      while i > 0
        invariant 0 <= i <= |positions|
        invariant sum + Total(positions[..i], seen, MarketValue) == Total(positions, {}, MarketValue)
      {
        i := i - 1;
        assert positions[..i + 1][..i] == positions[..i];
        if positions[i].ticker !in seen {
          sum := sum + Times(positions[i].quantity, positions[i].current);
        }
        seen := seen + {positions[i].ticker};
      }
    }

    method ApplyFillEffects(id: OrderId, ticker: string, side: Side, d: Decision) returns (refusal: Option<string>)
      requires d.Fill?
      modifies this`positions, this`accounts, this`trades
      ensures var r := ApplyFill(column, old(Tables()), id, ticker, side, d);
              if r.Ok? then refusal.None? && Tables() == r.value
              else refusal == Some(r.reason) && Tables() == old(Tables())
    {
      hide Round8, HalfUp8, Times, Total, Sellable, Latest, CashAfter;
      var latest := LatestPositions();
      var previous := if ticker in latest then Some(latest[ticker]) else None;
      var owned := if previous.Some? then previous.value.quantity else 0.0;
      var average := if previous.Some? then previous.value.avg else d.price;
      var available := Sellable(previous);
      if side.Sell? && d.quantity > available {
        return Some("paper_oversell_block");
      }
      var gross := Times(d.price, d.quantity);
      var cash := CashAfter(accounts);
      cash := Round8(cash + (if side.Buy? then -(gross + d.fee) else gross - d.fee));
      if cash < 0.0 {
        return Some("paper_cash_guard");
      }
      var opener: Option<OrderId> := None;
      if previous.Some? && owned > 0.0 {
        if previous.value.opener.Some? && (side.Sell? || previous.value.opener.value == id) {
          opener := previous.value.opener;
        }
      } else if side.Buy? {
        opener := Some(id);
      }
      var quantity, offered, newAverage := owned - d.quantity, available - d.quantity, average;
      if side.Buy? {
        quantity, offered := owned + d.quantity, available + d.quantity;
        newAverage := if quantity > 0.0 then (Times(owned, average) + gross + d.fee) / quantity else d.price;
      } else {
        trades := trades + [TradeRow(ticker, opener, id, d.quantity, average, d.price,
                                     Round8(Times(d.price - average, d.quantity) - d.fee))];
      }
      positions := positions + [PositionRow(
        ticker, owned, quantity, Kept(column, newAverage), d.quote,
        Round8(Times(d.quote - newAverage, quantity)), Some(offered), opener, id, side)];
      var invested := Invested();
      invested := Round8(invested);
      var total := Round8(cash + invested);
      accounts := accounts + [AccountRow(total, cash, invested, Round8(total - STARTING_CASH))];
      refusal := None;
    }

    method Execute(id: OrderId, body: Body, risk: Risk) returns (refusal: Option<string>)
      modifies this
      ensures var r := PaperLedger.Execute(column, old(Tables()), id, body, risk);
              if r.Ok? then refusal.None? && Tables() == r.value
              else refusal == Some(r.reason) && Tables() == old(Tables())
    {
      hide Round8, Trunc8, HalfUp8, Times, Total, ApplyFill, Evaluate;
      var quantity := AskedQuantity(body);
      if quantity <= 0.0 || quantity > MAX_QUANTITY {
        return Some("paper_quantity_range");
      }
      var latest := LatestPositions();
      var current := if body.ticker in latest then Some(latest[body.ticker]) else None;
      if body.side.Sell? && quantity > Sellable(current) {
        return Some("paper_oversell_block");
      }
      var d := Evaluate(body.side, quantity, body.estimatedPrice, body.profile);
      if !risk.before {
        return Some("risk_block");
      }
      if body.side.Buy? && Times(quantity, RiskPrice(body.side, d)) > CashAfter(accounts) {
        return Some("cash_guard_block");
      }
      if !risk.after {
        return Some("risk_block");
      }
      if id in orders {
        return Some("duplicate_order_id");
      }
      var before := orders;
      orders := orders[id := NewOrder(body, quantity, d)];
      refusal := None;
      if d.Fill? {
        refusal := ApplyFillEffects(id, body.ticker, body.side, d);
        if refusal.Some? {
          orders := before;
        }
      }
    }

    method FillPartialOrder(id: OrderId, asked: real, price: real, halted: Option<bool>) returns (refusal: Option<string>)
      modifies this
      ensures var r := FillPartial(column, old(Tables()), id, asked, price, halted);
              if r.Ok? then refusal.None? && Tables() == r.value
              else refusal == Some(r.reason) && Tables() == old(Tables())
    {
      hide Round8, Trunc8, HalfUp8, Times, Total, ApplyFill, Evaluate;
      if id !in orders || !orders[id].status.PartiallyFilled? {
        return Some("not_a_partial_order");
      }
      var locked := orders[id];
      var quantity := Trunc8(asked);
      if quantity <= 0.0 || quantity > Remaining(locked) {
        return Some("follow_up_quantity");
      }
      var d := Evaluate(locked.side, quantity, price, Standard);
      if d.Rejected? || !d.whole || d.quantity != quantity {
        return Some("policy_did_not_fill");
      }
      var required := Round8(Times(d.price, d.quantity) + d.fee);
      if locked.side.Buy? && required > CashAfter(accounts) {
        return Some("paper_cash_guard");
      }
      var filled := locked.filled + d.quantity;
      if locked.quantity - filled < 0.0 || filled == 0.0 {
        return Some("follow_up_exceeds_remaining");
      }
      if halted != Some(false) {
        return Some("kill_switch");
      }
      refusal := ApplyFillEffects(id, locked.ticker, locked.side, d);
      if refusal.Some? {
        return;
      }
      var average := if locked.avgFill.Some? then locked.avgFill.value else d.price;
      average := (Times(average, locked.filled) + Times(d.price, d.quantity)) / filled;
      locked := locked.(
        status := if locked.quantity - filled == 0.0 then Filled else PartiallyFilled,
        filled := filled, avgFill := Some(Round8(average)), fee := Round8(locked.fee + d.fee));
      if locked.side.Buy? {
        var used := if locked.cashUsed.Some? then locked.cashUsed.value else 0.0;
        locked := locked.(cashUsed := Some(used + required));
      }
      orders := orders[id := locked];
    }
  }
}
