/** Exactly which requests the paper account serves, and exactly what it then writes. */
module PaperLedgerOutcomes {
  import opened Decimals
  import opened Outcomes
  import opened PaperPolicy
  import opened PaperLedger
  import opened PaperLedgerProofs

  // ---------------------------------------------------------------- what is held

  /** Shares that the rows of a ticker bought, less those they sold. */
  ghost function Net(rows: seq<PositionRow>, ticker: string): real {
    if rows == [] then 0.0
    else
      var r := rows[|rows| - 1];
      var moved := Abs(r.quantity - r.previous);
      Net(rows[..|rows| - 1], ticker) + (if r.ticker != ticker then 0.0 else if r.side.Buy? then moved else -moved)
  }

  /** A ticker's newest row holds what was bought less what was sold, and all of it may be sold. */
  ghost predicate HoldsNet(rows: seq<PositionRow>, ticker: string) {
    var p := Latest(rows, ticker);
    Owned(p) == Net(rows, ticker) && Sellable(p) == Net(rows, ticker)
  }

  lemma FillHoldsNet(column: Column, l: Ledger, id: OrderId, ticker: string, side: Side, d: Decision, t: string)
    requires GoodFill(d) && ApplyFill(column, l, id, ticker, side, d).Ok?
    requires HoldsNet(l.positions, t)
    ensures HoldsNet(ApplyFill(column, l, id, ticker, side, d).value.positions, t)
  {
    hide ApplyFill, Round8, AccountAfter, NewAverage, Times, HalfUp8, Total;
    FillShape(column, l, id, ticker, side, d);
    OpenersAppend(l.positions, FilledRow(column, Latest(l.positions, ticker), id, ticker, side, d), t);
  }

  lemma StepHoldsNet(column: Column, l: Ledger, c: Command, t: string)
    requires HoldsNet(l.positions, t)
    ensures HoldsNet(Step(column, l, c).positions, t)
  {
    hide ApplyFill, Evaluate, HoldsNet, AskedQuantity, RiskPrice, NewOrder, Trunc8, Round8, Times, Remaining;
    if Answer(column, l, c).Ok? {
      match c
      case Place(id, body, _) =>
        var d := Evaluate(body.side, AskedQuantity(body), body.estimatedPrice, body.profile);
        if d.Fill? {
          PolicyGivesGoodFill(body.side, AskedQuantity(body), body.estimatedPrice, body.profile);
          var recorded := l.(orders := l.orders[id := NewOrder(body, AskedQuantity(body), d)]);
          FillHoldsNet(column, recorded, id, body.ticker, body.side, d, t);
        }
      case FollowUp(id, quantity, price, _) =>
        var o := l.orders[id];
        PolicyGivesGoodFill(o.side, Trunc8(quantity), price, Standard);
        FillHoldsNet(column, l, id, o.ticker, o.side, Evaluate(o.side, Trunc8(quantity), price, Standard), t);
    }
  }

  /** After any requests, what is held of a ticker, and may be sold, is what its fills bought
      less what they sold. */
  lemma {:induction false} HoldingsAreNet(column: Column, commands: seq<Command>, ticker: string)
    ensures HoldsNet(Run(column, commands).positions, ticker)
  {
    hide Step;
    if commands != [] {
      HoldingsAreNet(column, commands[..|commands| - 1], ticker);
      StepHoldsNet(column, Run(column, commands[..|commands| - 1]), commands[|commands| - 1], ticker);
    }
  }

  // ---------------------------------------------------------------- what a fill moves

  /** The price of one share: ten basis points from the quote, against the account. */
  ghost function PriceOf(side: Side, quote: real): real {
    Round8(if side.Buy? then quote * 1.001 else quote * 0.999)
  }

  /** Two basis points of the money, at least a cent. */
  ghost function FeeOf(side: Side, quote: real, quantity: real): real {
    Round8(Max(0.01, Times(PriceOf(side, quote), quantity) * 0.0002))
  }

  /** The money that moves: price and fee for a buy, price less fee for a sell. */
  ghost function Cost(quote: real, quantity: real): real {
    Times(PriceOf(Buy, quote), quantity) + FeeOf(Buy, quote, quantity)
  }

  ghost function Proceeds(quote: real, quantity: real): real {
    Times(PriceOf(Sell, quote), quantity) - FeeOf(Sell, quote, quantity)
  }

  ghost function BalanceAfter(cash: real, side: Side, quote: real, quantity: real): real {
    Round8(if side.Buy? then cash - Cost(quote, quantity) else cash + Proceeds(quote, quantity))
  }

  /** The policy's fill of `quantity` shares at `quote`. */
  ghost predicate IsFill(d: Decision, side: Side, quote: real, quantity: real) {
    && d.Fill? && d.quote == quote && d.quantity == quantity
    && d.price == PriceOf(side, quote) && d.fee == FeeOf(side, quote, quantity)
  }

  lemma CashMoves(l: Ledger, side: Side, d: Decision, quote: real, quantity: real)
    requires IsFill(d, side, quote, quantity)
    ensures CashAfter(l.accounts) + CashDelta(side, d)
         == if side.Buy? then CashAfter(l.accounts) - Cost(quote, quantity) else CashAfter(l.accounts) + Proceeds(quote, quantity)
    ensures side.Buy? ==> Times(d.price, d.quantity) + d.fee == Cost(quote, quantity)
  {
    hide Round8, Times;
  }

  /** A fill goes through exactly when a sell is covered and the balance stays in credit. */
  lemma FillAppliesExactlyWhen(column: Column, l: Ledger, id: OrderId, ticker: string, side: Side, d: Decision, quote: real, quantity: real)
    requires IsFill(d, side, quote, quantity) && HoldsNet(l.positions, ticker)
    ensures ApplyFill(column, l, id, ticker, side, d).Ok? <==>
              && (side.Sell? ==> quantity <= Net(l.positions, ticker))
              && BalanceAfter(CashAfter(l.accounts), side, quote, quantity) >= 0.0
  {
    hide Round8, Times, FilledRow, AccountAfter, ClosedTrade, CashDelta, Cost, Proceeds;
    CashMoves(l, side, d, quote, quantity);
  }

  /** A buy whose rounded cost the balance covers leaves it in credit. */
  lemma CoveredStaysInCredit(cash: real, cost: real)
    requires OnGrid8(cash)
    ensures Round8(cost) <= cash ==> Round8(cash - cost) >= 0.0
    ensures cost <= cash ==> Round8(cash - cost) >= 0.0
  {
    var n :| cash == Units8(n);
    var x := cost * 100000000.0;
    assert (cash - cost) * 100000000.0 == n as real - x;
    if HalfEven(x) <= n {
      HalfEvenMonotone(-0.5, n as real - x);
      assert (-0.5 as real).Floor == -1;
    }
    HalfEvenMonotone(0.0, if cost <= cash then n as real - x else 0.0);
  }

  // ---------------------------------------------------------------- follow-up fills

  /** A follow-up changes the account exactly when its order is partially filled, it asks for
      something and no more than remains, its quote does not vanish, the balance or the holding
      covers it, and the kill switch is known to be off. */
  lemma FollowUpFillsExactlyWhen(column: Column, commands: seq<Command>, id: OrderId, asked: real, price: real, halted: Option<bool>)
    ensures var l := Run(column, commands);
            Step(column, l, FollowUp(id, asked, price, halted)) != l <==>
              && id in l.orders && l.orders[id].status.PartiallyFilled?
              && var o, quantity, quote := l.orders[id], Trunc8(asked), Trunc8(price);
                 && 0.0 < quantity <= o.quantity - o.filled
                 && quote > 0.0
                 && (o.side.Buy? ==> Round8(Cost(quote, quantity)) <= CashAfter(l.accounts))
                 && (o.side.Sell? ==>
                       && quantity <= Net(l.positions, o.ticker)
                       && Round8(CashAfter(l.accounts) + Proceeds(quote, quantity)) >= 0.0)
                 && halted == Some(false)
  {
    hide Run, Round8, Trunc8, FillPartial, HoldsNet, Cost, Proceeds, Net, OnGrid8, Sound;
    var l := Run(column, commands);
    RunIsSound(column, commands);
    FillPartialFills(column, l, id, asked, price, halted);
    if id in l.orders {
      OrdersAgree(column, l, id);
      HoldingsAreNet(column, commands, l.orders[id].ticker);
      BalanceIsWholeQuanta(column, commands);
      FollowUpServedExactlyWhen(column, l, id, asked, price, halted);
    }
  }

  lemma OrdersAgree(column: Column, l: Ledger, id: OrderId)
    requires Sound(column, l) && id in l.orders
    ensures OrderOk(l.orders[id])
  {
    hide TablesSound, Increments, CashTaken, Fills;
    TablesAlign(column, l);
    assert OrderAgrees(l, id);
  }

  lemma FillPartialFills(column: Column, l: Ledger, id: OrderId, asked: real, price: real, halted: Option<bool>)
    ensures var r := FillPartial(column, l, id, asked, price, halted);
            && (r.Ok? ==> r.value != l) && (r.Ok? ==> id in l.orders)
  {
    hide Round8, Trunc8, Times, ApplyFill, Evaluate, AfterFollowUp;
    if FillPartial(column, l, id, asked, price, halted).Ok? {
      var o := l.orders[id];
      FillShape(column, l, id, o.ticker, o.side, Evaluate(o.side, Trunc8(asked), price, Standard));
    }
  }

  lemma FollowUpServedExactlyWhen(column: Column, l: Ledger, id: OrderId, asked: real, price: real, halted: Option<bool>)
    requires id in l.orders && OrderOk(l.orders[id]) && HoldsNet(l.positions, l.orders[id].ticker)
    requires OnGrid8(CashAfter(l.accounts))
    ensures var o, quantity, quote := l.orders[id], Trunc8(asked), Trunc8(price);
            FillPartial(column, l, id, asked, price, halted).Ok? <==>
              && o.status.PartiallyFilled?
              && 0.0 < quantity <= o.quantity - o.filled
              && quote > 0.0
              && (o.side.Buy? ==> Round8(Cost(quote, quantity)) <= CashAfter(l.accounts))
              && (o.side.Sell? ==>
                    && quantity <= Net(l.positions, o.ticker)
                    && Round8(CashAfter(l.accounts) + Proceeds(quote, quantity)) >= 0.0)
              && halted == Some(false)
  {
    hide Round8, Trunc8, Times, ApplyFill, Evaluate, AfterFollowUp, CashDelta, HoldsNet, Cost, Proceeds, Net, OnGrid8, PriceOf, FeeOf;
    var o, quantity := l.orders[id], Trunc8(asked);
    var d := Evaluate(o.side, quantity, price, Standard);
    RoundingLandsOnGrid(asked);
    RoundingFixesGrid(quantity);
    StandardFills(o.side, quantity, price);
    if d.Fill? {
      FillAppliesExactlyWhen(column, l, id, o.ticker, o.side, d, Trunc8(price), quantity);
      CashMoves(l, o.side, d, Trunc8(price), quantity);
      CoveredStaysInCredit(CashAfter(l.accounts), Cost(Trunc8(price), quantity));
    }
  }

  /** The standard profile fills the whole of anything that does not vanish. */
  lemma StandardFills(side: Side, quantity: real, price: real)
    requires Trunc8(quantity) == quantity
    ensures var d := Evaluate(side, quantity, price, Standard);
            if quantity > 0.0 && Trunc8(price) > 0.0 then IsFill(d, side, Trunc8(price), quantity) && d.whole else d.Rejected?
  {
    hide Round8, Trunc8, Times;
    PolicyDecides(side, quantity, price, Standard);
  }

  // ---------------------------------------------------------------- new orders

  /** The shares asked for: those named, or as many quanta as the money buys at the price. */
  lemma AskedIsWhatMoneyBuys(body: Body)
    ensures var q := AskedQuantity(body);
            && (body.quantity.Some? && body.quantity.value >= 0.0 ==> q <= body.quantity.value < q + QUANTUM)
            && (body.quantity.None? && body.notional.Some? && body.notional.value >= 0.0 && body.estimatedPrice > 0.0 ==>
                  Times(q, body.estimatedPrice) <= body.notional.value < Times(q + QUANTUM, body.estimatedPrice))
            && (body.quantity.None? && (body.notional.None? || body.estimatedPrice <= 0.0) ==> q == 0.0)
            && OnGrid8(q)
  {
    hide Trunc8;
    AskedIsOnGrid(body);
    if body.quantity.None? && body.notional.Some? && body.notional.value >= 0.0 && body.estimatedPrice > 0.0 {
      Quotient(AskedQuantity(body), body.notional.value, body.estimatedPrice);
    }
  }

  lemma DividedBack(money: real, price: real)
    requires price > 0.0
    ensures Times(money / price, price) == money
  {}

  lemma ScaledOrder(a: real, b: real, price: real)
    requires price > 0.0
    ensures a <= b ==> Times(a, price) <= Times(b, price)
    ensures a < b ==> Times(a, price) < Times(b, price)
  {
    assert (b - a) * price == b * price - a * price;
  }

  lemma Quotient(q: real, money: real, price: real)
    requires price > 0.0 && q <= money / price < q + QUANTUM
    ensures Times(q, price) <= money < Times(q + QUANTUM, price)
  {
    hide Times;
    DividedBack(money, price);
    ScaledOrder(q, money / price, price);
    ScaledOrder(money / price, q + QUANTUM, price);
  }

  /** The shares a new order is filled for; none when it is recorded as rejected. */
  ghost function FilledAtOnce(body: Body): Option<real> {
    var asked, half := AskedQuantity(body), Round8(AskedQuantity(body) / 2.0);
    match body.profile
    case NoLiquidity => None
    case Standard => if Trunc8(body.estimatedPrice) > 0.0 then Some(asked) else None
    case PartialFill => if Trunc8(body.estimatedPrice) > 0.0 && half > 0.0 then Some(half) else None
  }

  lemma PolicyFillsAtOnce(body: Body)
    requires AskedQuantity(body) > 0.0
    ensures var d := Evaluate(body.side, AskedQuantity(body), body.estimatedPrice, body.profile);
            if FilledAtOnce(body).Some? then
              IsFill(d, body.side, Trunc8(body.estimatedPrice), FilledAtOnce(body).value)
              && (d.whole <==> body.profile.Standard?)
              && 0.0 < d.quantity <= AskedQuantity(body) && (d.whole <==> d.quantity == AskedQuantity(body))
            else d.Rejected? && d.quote == Trunc8(body.estimatedPrice)
  {
    hide Round8, Trunc8, Times, AskedQuantity;
    AskedIsOnGrid(body);
    PolicyDecides(body.side, AskedQuantity(body), body.estimatedPrice, body.profile);
    var d := Evaluate(body.side, AskedQuantity(body), body.estimatedPrice, body.profile);
    if d.Fill? {
      FillContract(body.side, AskedQuantity(body), body.estimatedPrice, body.profile);
    }
  }

  /** What the cash guard asks of a buy: the money for all its shares at what each share filled
      costs, fees included, or at the quote when nothing is filled. */
  ghost predicate GuardCovers(cash: real, body: Body) {
    var asked, quote := AskedQuantity(body), Trunc8(body.estimatedPrice);
    match FilledAtOnce(body)
    case Some(filled) => Times(asked, Cost(quote, filled)) <= Times(cash, filled)
    case None => Times(asked, quote) <= cash
  }

  lemma SpreadOverShares(asked: real, cost: real, filled: real, cash: real)
    requires 0.0 < filled <= asked && cost > 0.0
    ensures Times(asked, cost / filled) <= cash <==> Times(asked, cost) <= Times(cash, filled)
    ensures Times(asked, cost) <= Times(cash, filled) ==> cost <= cash
  {
    var each := cost / filled;
    assert each * filled == cost;
    assert asked * cost == (asked * each) * filled;
    if asked * each <= cash {
      assert (asked * each) * filled <= cash * filled;
    } else {
      assert (asked * each) * filled > cash * filled;
    }
    assert asked * each >= filled * each;
  }

  lemma GuardPasses(cash: real, body: Body)
    requires body.side.Buy? && AskedQuantity(body) > 0.0
    ensures var d := Evaluate(Buy, AskedQuantity(body), body.estimatedPrice, body.profile);
            && (Times(AskedQuantity(body), RiskPrice(Buy, d)) <= cash <==> GuardCovers(cash, body))
            && (FilledAtOnce(body).Some? && GuardCovers(cash, body) ==>
                  Cost(Trunc8(body.estimatedPrice), FilledAtOnce(body).value) <= cash)
  {
    hide Round8, Trunc8, Times, Evaluate, AskedQuantity, FilledAtOnce, PriceOf, FeeOf;
    PolicyFillsAtOnce(body);
    var d := Evaluate(Buy, AskedQuantity(body), body.estimatedPrice, body.profile);
    if d.Fill? {
      PolicyGivesGoodFill(Buy, AskedQuantity(body), body.estimatedPrice, body.profile);
      ProductIsPositive(d.price, d.quantity);
      SpreadOverShares(AskedQuantity(body), Times(d.price, d.quantity) + d.fee, d.quantity, cash);
    }
  }

  /** A new order is recorded exactly when it asks for something storable, both rounds of risk
      checks pass, a sell is covered by what is held, the cash guard covers a buy, a sell's fee
      leaves the balance in credit, and its id is new. */
  lemma OrderRecordedExactlyWhen(column: Column, commands: seq<Command>, id: OrderId, body: Body, risk: Risk)
    ensures var l := Run(column, commands);
            var asked, quote := AskedQuantity(body), Trunc8(body.estimatedPrice);
            Step(column, l, Place(id, body, risk)) != l <==>
              && 0.0 < asked <= 999999999999.99999999
              && risk.before && risk.after && id !in l.orders
              && (body.side.Buy? ==> GuardCovers(CashAfter(l.accounts), body))
              && (body.side.Sell? ==>
                    && asked <= Net(l.positions, body.ticker)
                    && (FilledAtOnce(body).Some? ==>
                          Round8(CashAfter(l.accounts) + Proceeds(quote, FilledAtOnce(body).value)) >= 0.0))
  {
    hide Run, Round8, Trunc8, Times, ApplyFill, Evaluate, CashDelta, HoldsNet, AskedQuantity, FilledAtOnce, GuardCovers,
      RiskPrice, NewOrder, Cost, Proceeds, Net;
    var l := Run(column, commands);
    var asked := AskedQuantity(body);
    HoldingsAreNet(column, commands, body.ticker);
    HeldIsSellable(l.positions, body.ticker);
    if asked > 0.0 {
      PolicyFillsAtOnce(body);
      var d := Evaluate(body.side, asked, body.estimatedPrice, body.profile);
      var recorded := l.(orders := l.orders[id := NewOrder(body, asked, d)]);
      if body.side.Buy? {
        GuardPasses(CashAfter(l.accounts), body);
      }
      assert id !in l.orders ==> recorded.orders != l.orders by {
        assert id in recorded.orders;
      }
      if d.Fill? {
        var filled := FilledAtOnce(body).value;
        FillAppliesExactlyWhen(column, recorded, id, body.ticker, body.side, d, Trunc8(body.estimatedPrice), filled);
        BalanceIsWholeQuanta(column, commands);
        CoveredStaysInCredit(CashAfter(l.accounts), Cost(Trunc8(body.estimatedPrice), filled));
        if ApplyFill(column, recorded, id, body.ticker, body.side, d).Ok? {
          FillShape(column, recorded, id, body.ticker, body.side, d);
        }
      }
    }
  }

  lemma HeldIsSellable(rows: seq<PositionRow>, ticker: string)
    requires HoldsNet(rows, ticker)
    ensures Sellable(Latest(rows, ticker)) == Net(rows, ticker) == Owned(Latest(rows, ticker))
  {
    hide Net;
  }

  // ---------------------------------------------------------------- what is written

  /** What a fill writes beside its order: the ticker's new row, the account's new row and, for a
      sell, the trade it closes. */
  ghost predicate Written(column: Column, l: Ledger, l': Ledger, id: OrderId, ticker: string, side: Side, quote: real, quantity: real) {
    && |l'.positions| == |l.positions| + 1 && l'.positions[..|l.positions|] == l.positions
    && |l'.accounts| == |l.accounts| + 1 && l'.accounts[..|l.accounts|] == l.accounts
    && RowWritten(column, l, l'.positions[|l.positions|], id, ticker, side, quote, quantity)
    && AccountWritten(l, l', side, quote, quantity)
    && (side.Buy? ==> l'.trades == l.trades)
    && (side.Sell? ==>
          && |l'.trades| == |l.trades| + 1 && l'.trades[..|l.trades|] == l.trades
          && TradeWritten(l, l'.trades[|l.trades|], id, ticker, quote, quantity))
  }

  /** A buy's average is the cost of all that is held, fees included, over the shares; a sell
      leaves it as it was. */
  ghost function AverageAfter(l: Ledger, ticker: string, side: Side, quote: real, quantity: real): real {
    var held, before := Net(l.positions, ticker), Latest(l.positions, ticker);
    if side.Sell? then (if before.Some? then before.value.avg else PriceOf(Sell, quote))
    else
      var cost := (if before.Some? then Times(held, before.value.avg) else 0.0) + Cost(quote, quantity);
      if held + quantity == 0.0 then 0.0 else cost / (held + quantity)
  }

  ghost predicate RowWritten(
    column: Column, l: Ledger, r: PositionRow, id: OrderId, ticker: string, side: Side, quote: real, quantity: real
  ) {
    var held := Net(l.positions, ticker);
    var avg := AverageAfter(l, ticker, side, quote, quantity);
    && r.ticker == ticker && r.source == id && r.side == side && r.current == quote
    && r.previous == held
    && r.quantity == (if side.Buy? then held + quantity else held - quantity)
    && r.available == Some(r.quantity)
    && r.avg == Kept(column, avg)
    && r.unrealized == Round8(Times(quote - avg, r.quantity))
  }

  /** The account's row: the balance, what is invested at the newest prices, and their sum. */
  ghost predicate AccountWritten(l: Ledger, l': Ledger, side: Side, quote: real, quantity: real)
    requires l'.accounts != []
  {
    var a := l'.accounts[|l'.accounts| - 1];
    && a.cash == BalanceAfter(CashAfter(l.accounts), side, quote, quantity)
    && a.invested == Round8(Total(l'.positions, {}, MarketValue))
    && a.total == a.cash + a.invested
    && a.result == a.total - 100000.0
  }

  ghost predicate TradeWritten(l: Ledger, t: TradeRow, id: OrderId, ticker: string, quote: real, quantity: real) {
    var before := Latest(l.positions, ticker);
    && before.Some?
    && t.ticker == ticker && t.closer == id && t.quantity == quantity
    && t.openPrice == before.value.avg && t.closePrice == PriceOf(Sell, quote)
    && t.realized == Round8(Proceeds(quote, quantity) - Times(t.openPrice, quantity))
  }

  lemma RowIsWritten(column: Column, l: Ledger, id: OrderId, ticker: string, side: Side, d: Decision, quote: real, quantity: real)
    requires IsFill(d, side, quote, quantity) && HoldsNet(l.positions, ticker) && 0.0 < quantity
    requires 0.0 <= Net(l.positions, ticker)
    requires side.Sell? ==> quantity <= Net(l.positions, ticker)
    ensures RowWritten(column, l, FilledRow(column, Latest(l.positions, ticker), id, ticker, side, d), id, ticker, side, quote, quantity)
  {
    hide Round8, HalfUp8, Net, PriceOf, FeeOf, Times;
    ZeroTimes(PriceOf(side, quote));
  }

  lemma ZeroTimes(x: real)
    ensures Times(0.0, x) == 0.0
  {}

  lemma TradeIsWritten(l: Ledger, id: OrderId, ticker: string, d: Decision, quote: real, quantity: real)
    requires IsFill(d, Sell, quote, quantity) && Latest(l.positions, ticker).Some?
    ensures TradeWritten(l, ClosedTrade(Latest(l.positions, ticker), id, ticker, d), id, ticker, quote, quantity)
  {
    hide Round8, PriceOf, FeeOf, Latest, Opener;
    var avg := Latest(l.positions, ticker).value.avg;
    LessQuantity(0.0, quantity, avg, d.price);
    assert Times(avg, quantity) == Times(quantity, avg);
  }

  lemma FillIsWritten(column: Column, l: Ledger, id: OrderId, ticker: string, side: Side, d: Decision, quote: real, quantity: real)
    requires IsFill(d, side, quote, quantity) && HoldsNet(l.positions, ticker) && 0.0 < quantity
    requires 0.0 <= Net(l.positions, ticker) && OnGrid8(CashAfter(l.accounts))
    requires ApplyFill(column, l, id, ticker, side, d).Ok?
    ensures Written(column, l, ApplyFill(column, l, id, ticker, side, d).value, id, ticker, side, quote, quantity)
  {
    hide Round8, Net, PriceOf, FeeOf, Times, ApplyFill, FilledRow, ClosedTrade, CashDelta, Cost, Proceeds, RowWritten,
      TradeWritten, Total, IsFill, HoldsNet;
    FillShape(column, l, id, ticker, side, d) by { FillIsAFill(d, side, quote, quantity); }
    HeldIsSellable(l.positions, ticker);
    FillIsAFill(d, side, quote, quantity);
    RowIsWritten(column, l, id, ticker, side, d, quote, quantity);
    if side.Sell? {
      TradeIsWritten(l, id, ticker, d, quote, quantity);
    }
    CashMoves(l, side, d, quote, quantity);
    var cash := CashAfter(l.accounts) + CashDelta(side, d);
    RoundingLandsOnGrid(cash);
    var positions := ApplyFill(column, l, id, ticker, side, d).value.positions;
    AccountFiguresAreExact(Round8(cash), Total(positions, {}, MarketValue));
    RoundedTotal(Round8(cash), Total(positions, {}, MarketValue));
  }

  lemma FillIsAFill(d: Decision, side: Side, quote: real, quantity: real)
    requires IsFill(d, side, quote, quantity)
    ensures d.Fill? && d.quantity == quantity && d.price == PriceOf(side, quote)
  {
    hide PriceOf, FeeOf;
  }

  lemma RoundedTotal(cash: real, marked: real)
    requires OnGrid8(cash)
    ensures Round8(cash + Round8(marked)) == cash + Round8(marked)
  {
    hide Round8;
    RoundingLandsOnGrid(marked);
    GridSum(cash, Round8(marked));
    RoundingFixesGrid(cash + Round8(marked));
  }

  /** A follow-up that goes through writes its fill, and into its order the shares, the share-
      weighted price, the fees and the cash of all its fills so far. */
  lemma FollowUpWrites(column: Column, commands: seq<Command>, id: OrderId, asked: real, price: real, halted: Option<bool>)
    requires Step(column, Run(column, commands), FollowUp(id, asked, price, halted)) != Run(column, commands)
    ensures var l := Run(column, commands);
            var l' := Step(column, l, FollowUp(id, asked, price, halted));
            var quantity, quote := Trunc8(asked), Trunc8(price);
            && id in l.orders && id in l'.orders
            && var o, o' := l.orders[id], l'.orders[id];
               && Written(column, l, l', id, o.ticker, o.side, quote, quantity)
               && l'.orders == l.orders[id := o']
               && o'.ticker == o.ticker && o'.side == o.side && o'.quantity == o.quantity
               && o'.filled == o.filled + quantity
               && o'.status == (if o'.filled == o.quantity then Filled else PartiallyFilled)
  {
    hide Run, Round8, Trunc8, Times, ApplyFill, Evaluate, CashDelta, HoldsNet, Cost, Proceeds, Net, Written, PriceOf, FeeOf;
    var l := Run(column, commands);
    FollowUpFillsExactlyWhen(column, commands, id, asked, price, halted);
    var o, quantity := l.orders[id], Trunc8(asked);
    var d := Evaluate(o.side, quantity, price, Standard);
    RoundingLandsOnGrid(asked);
    RoundingFixesGrid(quantity);
    StandardFills(o.side, quantity, price);
    HoldingsAreNet(column, commands, o.ticker);
    HeldIsSellable(l.positions, o.ticker);
    BalanceIsWholeQuanta(column, commands);
    BookIsConserved(column, commands);
    FillIsWritten(column, l, id, o.ticker, o.side, d, Trunc8(price), quantity);
    WrittenIgnoresOrders(column, l, l, ApplyFill(column, l, id, o.ticker, o.side, d).value,
                         Step(column, l, FollowUp(id, asked, price, halted)), id, o.ticker, o.side, Trunc8(price), quantity);
  }

  lemma WrittenIgnoresOrders(
    column: Column, l: Ledger, m: Ledger, l': Ledger, m': Ledger, id: OrderId, ticker: string, side: Side, quote: real, quantity: real)
    requires Written(column, l, l', id, ticker, side, quote, quantity)
    requires l.positions == m.positions && l.accounts == m.accounts && l.trades == m.trades
    requires l'.positions == m'.positions && l'.accounts == m'.accounts && l'.trades == m'.trades
    ensures Written(column, m, m', id, ticker, side, quote, quantity)
  {
    hide Net, Round8, Times, HalfUp8, PriceOf, FeeOf, Total, Latest;
  }

  /** A new order that goes through is recorded as asked for, and as rejected when the policy
      fills none of it; what it is filled for is written, and nothing else is. */
  lemma OrderWrites(column: Column, commands: seq<Command>, id: OrderId, body: Body, risk: Risk)
    requires Step(column, Run(column, commands), Place(id, body, risk)) != Run(column, commands)
    ensures var l := Run(column, commands);
            var l' := Step(column, l, Place(id, body, risk));
            var quote := Trunc8(body.estimatedPrice);
            && id in l'.orders
            && var o := l'.orders[id];
               && l'.orders == l.orders[id := o]
               && o.ticker == body.ticker && o.side == body.side && o.quantity == AskedQuantity(body)
               && match FilledAtOnce(body)
                  case None =>
                    && l' == l.(orders := l'.orders) && o.status.OrderRejected?
                    && o.filled == 0.0 && o.avgFill.None? && o.fee == 0.0
                    && o.cashUsed == (if o.side.Buy? then Some(0.0) else None)
                  case Some(filled) =>
                    && Written(column, l, l', id, o.ticker, o.side, quote, filled)
                    && o.status == (if filled == o.quantity then Filled else PartiallyFilled)
                    && o.filled == filled && o.avgFill == Some(PriceOf(o.side, quote)) && o.fee == FeeOf(o.side, quote, filled)
                    && o.cashUsed == (if o.side.Buy? then Some(Round8(Cost(quote, filled))) else None)
  {
    hide Run, Round8, Trunc8, Times, ApplyFill, Evaluate, CashDelta, HoldsNet, AskedQuantity, FilledAtOnce, GuardCovers,
      RiskPrice, Net, Written, PriceOf, FeeOf;
    var l := Run(column, commands);
    var asked := AskedQuantity(body);
    OrderRecordedExactlyWhen(column, commands, id, body, risk);
    PolicyFillsAtOnce(body);
    var d := Evaluate(body.side, asked, body.estimatedPrice, body.profile);
    if d.Fill? {
      var recorded := l.(orders := l.orders[id := NewOrder(body, asked, d)]);
      var filled := FilledAtOnce(body).value;
      HoldingsAreNet(column, commands, body.ticker);
      HeldIsSellable(l.positions, body.ticker);
      BalanceIsWholeQuanta(column, commands);
      BookIsConserved(column, commands);
      ApplyFillKeepsOrders(column, recorded, id, body.ticker, body.side, d);
      var l' := ApplyFill(column, recorded, id, body.ticker, body.side, d).value;
      FillIsWritten(column, recorded, id, body.ticker, body.side, d, Trunc8(body.estimatedPrice), filled);
      WrittenIgnoresOrders(column, recorded, l, l', l', id, body.ticker, body.side, Trunc8(body.estimatedPrice), filled);
    }
  }

  // ---------------------------------------------------------------- an order over all its fills

  /** A figure of every fill of one order, added up over a sequence of requests. */
  ghost function OverFills(column: Column, commands: seq<Command>, id: OrderId, f: Decision -> real): real {
    if commands == [] then 0.0
    else
      var n := |commands| - 1;
      var fill := FillOf(column, Run(column, commands[..n]), commands[n]);
      OverFills(column, commands[..n], id, f)
      + (if fill.Some? && commands[n].id == id then f(fill.value.2) else 0.0)
  }

  ghost function SharesOf(d: Decision): real { if d.Fill? then d.quantity else 0.0 }

  ghost function MoneyOf(d: Decision): real { if d.Fill? then Times(d.price, d.quantity) else 0.0 }

  ghost function FeesOf(d: Decision): real { if d.Fill? then d.fee else 0.0 }

  ghost function CashOf(d: Decision): real { if d.Fill? then Round8(Times(d.price, d.quantity) + d.fee) else 0.0 }

  /** An order states the shares, fees and cash of its fills exactly, and a price that accounts
      for their money to within half a quantum a share and fill. */
  ghost predicate Reconciled(o: Order, shares: real, money: real, fees: real, cash: real, fills: nat) {
    && o.filled == shares && o.fee == fees && OnGrid8(o.fee)
    && o.cashUsed == (if o.side.Buy? then Some(cash) else None)
    && (o.avgFill.Some? <==> o.filled > 0.0)
    && (o.avgFill.Some? ==>
          var gap, most := Times(o.avgFill.value, o.filled) - money, HALF_QUANTUM * Times(fills as real, o.filled);
          -most <= gap <= most)
  }

  ghost predicate OrderReconciled(column: Column, commands: seq<Command>, id: OrderId) {
    var l := Run(column, commands);
    var shares, money := OverFills(column, commands, id, SharesOf), OverFills(column, commands, id, MoneyOf);
    var fees, cash := OverFills(column, commands, id, FeesOf), OverFills(column, commands, id, CashOf);
    if id in l.orders then Reconciled(l.orders[id], shares, money, fees, cash, Fills(l.positions, id))
    else shares == 0.0 && money == 0.0 && fees == 0.0 && cash == 0.0
  }

  /** One more fill, and the weighted price rounded once more. */
  lemma WeightedPriceRounds(avg: real, filled: real, price: real, more: real, n: nat, money: real)
    requires 0.0 <= filled && 0.0 < more
    requires -HALF_QUANTUM * Times(n as real, filled) <= Times(avg, filled) - money <= HALF_QUANTUM * Times(n as real, filled)
    ensures var total := filled + more;
            var new_ := Round8((Times(avg, filled) + Times(price, more)) / total);
            var most := HALF_QUANTUM * Times((n + 1) as real, total);
            -most <= Times(new_, total) - (money + Times(price, more)) <= most
  {
    hide Round8, Times;
    var total, paid := filled + more, Times(avg, filled) + Times(price, more);
    var exact := paid / total;
    DividedBack(paid, total);
    RoundedProduct(Round8(exact), exact, total);
    ScaledError(total, Round8(exact) - exact);
    CountsGrow(n, filled, total);
  }

  lemma RoundedProduct(rounded: real, exact: real, total: real)
    ensures Times(rounded, total) == Times(exact, total) + Times(total, rounded - exact)
  {}

  lemma CountsGrow(n: nat, less: real, more: real)
    requires less <= more
    ensures Times(n as real, less) + more <= Times((n + 1) as real, more)
  {
    assert n as real * (more - less) >= 0.0;
  }

  lemma OverFillsAppend(column: Column, commands: seq<Command>, c: Command, id: OrderId, f: Decision -> real)
    ensures var fill := FillOf(column, Run(column, commands), c);
            OverFills(column, commands + [c], id, f)
            == OverFills(column, commands, id, f) + (if fill.Some? && c.id == id then f(fill.value.2) else 0.0)
  {
    hide FillOf, Run;
    assert (commands + [c])[..|commands|] == commands;
  }

  /** The fill of a request, and the order it leaves. */
  lemma OrderAfter(column: Column, l: Ledger, c: Command)
    requires Sound(column, l) && Answer(column, l, c).Ok?
    ensures var l' := Step(column, l, c);
            var fill := FillOf(column, l, c);
            && (fill.Some? ==> GoodFill(fill.value.2) && OnGrid8(fill.value.2.fee))
            && Fills(l'.positions, c.id) == Fills(l.positions, c.id) + (if fill.Some? then 1 else 0)
            && match c
               case Place(id, body, _) =>
                 id !in l.orders && Fills(l.positions, id) == 0 && id in l'.orders && l'.orders[id].side == body.side
                 && (fill.Some? ==> l'.orders[id] == NewOrder(body, AskedQuantity(body), fill.value.2))
                 && (fill.None? ==> l'.orders[id] == NewOrder(body, AskedQuantity(body), Rejected(0.0, "")))
               case FollowUp(id, _, _, _) =>
                 fill.Some? && id in l.orders && l.orders[id].filled > 0.0
                 && id in l'.orders && l'.orders[id] == AfterFollowUp(l.orders[id], fill.value.2)
  {
    hide Round8, Trunc8, Times, ApplyFill, Evaluate, RiskPrice, AskedQuantity, TablesSound, OrderAgrees, Increments, CashTaken;
    TablesAlign(column, l);
    SourcesAreOrders(column, l);
    match c
    case Place(id, body, _) =>
      NoFillsYet(l.positions, l.accounts, id);
      var d := Evaluate(body.side, AskedQuantity(body), body.estimatedPrice, body.profile);
      if d.Fill? {
        PolicyGivesGoodFill(body.side, AskedQuantity(body), body.estimatedPrice, body.profile);
        FillContract(body.side, AskedQuantity(body), body.estimatedPrice, body.profile);
        var recorded := l.(orders := l.orders[id := NewOrder(body, AskedQuantity(body), d)]);
        ApplyFillKeepsOrders(column, recorded, id, body.ticker, body.side, d);
        FillAddsToItsOrder(column, recorded, id, body.ticker, body.side, d, id);
      }
    case FollowUp(id, asked, price, _) =>
      PartialIsFilled(l, id);
      var o := l.orders[id];
      var d := Evaluate(o.side, Trunc8(asked), price, Standard);
      PolicyGivesGoodFill(o.side, Trunc8(asked), price, Standard);
      FillContract(o.side, Trunc8(asked), price, Standard);
      FillAddsToItsOrder(column, l, id, o.ticker, o.side, d, id);
  }

  lemma PartialIsFilled(l: Ledger, id: OrderId)
    requires id in l.orders && l.orders[id].status.PartiallyFilled? && |l.positions| == |l.accounts| && OrderAgrees(l, id)
    ensures l.orders[id].filled > 0.0
  {
    hide Increments, CashTaken;
  }

  lemma OthersStay(column: Column, l: Ledger, c: Command, id: OrderId)
    requires Sound(column, l) && (c.id != id || Answer(column, l, c).Refused?)
    ensures var l' := Step(column, l, c);
            && (id in l'.orders <==> id in l.orders) && (id in l.orders ==> l'.orders[id] == l.orders[id])
            && Fills(l'.positions, id) == Fills(l.positions, id)
  {
    hide Round8, Trunc8, Times, ApplyFill, Evaluate, RiskPrice, AskedQuantity, NewOrder, AfterFollowUp, TablesSound, OrderAgrees;
    TablesAlign(column, l);
    if Answer(column, l, c).Ok? {
      match c
      case Place(other, body, _) =>
        var d := Evaluate(body.side, AskedQuantity(body), body.estimatedPrice, body.profile);
        if d.Fill? {
          PolicyGivesGoodFill(body.side, AskedQuantity(body), body.estimatedPrice, body.profile);
          var recorded := l.(orders := l.orders[other := NewOrder(body, AskedQuantity(body), d)]);
          ApplyFillKeepsOrders(column, recorded, other, body.ticker, body.side, d);
          FillAddsToItsOrder(column, recorded, other, body.ticker, body.side, d, id);
        }
      case FollowUp(other, asked, price, _) =>
        var o := l.orders[other];
        var d := Evaluate(o.side, Trunc8(asked), price, Standard);
        PolicyGivesGoodFill(o.side, Trunc8(asked), price, Standard);
        FillAddsToItsOrder(column, l, other, o.ticker, o.side, d, id);
    }
  }

  lemma NewOrderReconciles(body: Body, quantity: real, d: Decision)
    requires d.Fill? ==> GoodFill(d) && OnGrid8(d.fee)
    ensures Reconciled(NewOrder(body, quantity, d), SharesOf(d), MoneyOf(d), FeesOf(d), CashOf(d), if d.Fill? then 1 else 0)
  {
    hide Round8;
    assert 0.0 == Units8(0);
    if d.Fill? {
      assert Times(1 as real, d.quantity) == d.quantity;
    }
  }

  lemma FollowedOrderReconciles(o: Order, d: Decision, shares: real, money: real, fees: real, cash: real, fills: nat)
    requires Reconciled(o, shares, money, fees, cash, fills) && GoodFill(d) && OnGrid8(d.fee) && o.filled > 0.0
    ensures Reconciled(AfterFollowUp(o, d), shares + SharesOf(d), money + MoneyOf(d), fees + FeesOf(d), cash + CashOf(d), fills + 1)
  {
    hide Round8, Times, OnGrid8;
    WeightedPriceRounds(o.avgFill.value, o.filled, d.price, d.quantity, fills, money);
    GridSum(o.fee, d.fee);
    RoundingFixesGrid(o.fee + d.fee);
  }

  lemma StepReconciles(column: Column, commands: seq<Command>, c: Command, id: OrderId)
    requires OrderReconciled(column, commands, id)
    ensures OrderReconciled(column, commands + [c], id)
  {
    hide FillOf, Answer, Step, Reconciled, Sound, NewOrder, AfterFollowUp, OverFills, AskedQuantity, SharesOf, MoneyOf, FeesOf, CashOf;
    var l := Run(column, commands);
    assert (commands + [c])[..|commands|] == commands;
    assert Run(column, commands + [c]) == Step(column, l, c);
    RunIsSound(column, commands);
    OverFillsAppend(column, commands, c, id, SharesOf);
    OverFillsAppend(column, commands, c, id, MoneyOf);
    OverFillsAppend(column, commands, c, id, FeesOf);
    OverFillsAppend(column, commands, c, id, CashOf);
    var fill := FillOf(column, l, c);
    if c.id != id || Answer(column, l, c).Refused? {
      OthersStay(column, l, c, id);
      RefusedFillsNothing(column, l, c);
    } else {
      OrderAfter(column, l, c);
      match c
      case Place(_, body, _) =>
        var d := if fill.Some? then fill.value.2 else Rejected(0.0, "");
        NewOrderReconciles(body, AskedQuantity(body), d);
        RejectedAddsNothing();
      case FollowUp(_, _, _, _) =>
        FollowedOrderReconciles(l.orders[id], fill.value.2, OverFills(column, commands, id, SharesOf),
                                OverFills(column, commands, id, MoneyOf), OverFills(column, commands, id, FeesOf),
                                OverFills(column, commands, id, CashOf), Fills(l.positions, id));
    }
  }

  lemma RefusedFillsNothing(column: Column, l: Ledger, c: Command)
    ensures Answer(column, l, c).Refused? ==> FillOf(column, l, c).None?
  {
    hide Answer;
  }

  lemma RejectedAddsNothing()
    ensures var d := Rejected(0.0, ""); SharesOf(d) == MoneyOf(d) == FeesOf(d) == CashOf(d) == 0.0
  {}

  /** After any requests, an order states the shares, the fees and the cash of all its fills
      exactly, and an average price that accounts for their money to within half a quantum a
      share and fill. */
  lemma {:induction false} OrderStatesItsFills(column: Column, commands: seq<Command>, id: OrderId)
    ensures OrderReconciled(column, commands, id)
  {
    hide Reconciled, Step;
    if commands == [] {
      assert Run(column, []) == EmptyLedger;
    } else {
      var n := |commands| - 1;
      OrderStatesItsFills(column, commands[..n], id);
      StepReconciles(column, commands[..n], commands[n], id);
      assert commands[..n] + [commands[n]] == commands;
    }
  }
}
