/** What every backtest conserves and respects, for every strategy and bar series. */
module BacktestProofs {
  import opened Decimals
  import opened Outcomes
  import opened PaperPolicy
  import opened DataContract
  import opened Backtest

  // ---------------------------------------------------------------- fills

  /** A fill's price depends on the side and the quote alone, and its quantity is what was
      asked, in whole quanta. */
  lemma SimulateIsExact(c: Config, side: Side, quantity: real, quote: real)
    requires ConfigOk(c) && Simulate(c, side, quantity, quote).Ok?
    ensures var f := Simulate(c, side, quantity, quote).value;
            && f.price == FillPrice(side, Trunc8(quote)) > 0.0
            && f.quantity == Trunc8(quantity) && 0.0 < f.quantity <= quantity && OnGrid8(f.quantity)
            && f.fee >= 0.0
  {
    hide FillPrice, Trunc8, Fee, Round2, Times;
    FillContract(side, quantity, quote, Standard);
  }

  lemma WithinBudget(quantity: real, budget: real, price: real)
    requires price > 0.0 && quantity <= budget / price
    ensures Times(price, quantity) <= budget
  {
    assert budget / price * price == budget;
  }

  lemma SmallerCostsLess(price: real, less: real, more: real)
    requires price > 0.0 && less <= more
    ensures Times(price, less) <= Times(price, more)
  {}

  /** The caps an entry of `quantity` at `price` must respect. */
  ghost predicate WithinCaps(c: Config, order: Order, price: real, quantity: real, fee: real, cash: real, equity: real, stop: real) {
    && 0.0 < quantity <= order.quantity
    && Times(price, quantity) <= Times(equity, c.maxPositionPct) / 100.0
    && (stop < price ==> Times(price - stop, quantity) <= Times(equity, c.riskPct) / 100.0)
    && (c.stopRequired ==> 0.0 < stop < price)
    && Times(price, quantity) + fee <= cash
  }

  lemma CappedRespectsCaps(c: Config, initial: SimulatedFill, equity: real, stop: real)
    requires initial.price > 0.0
    ensures var q := CappedQuantity(c, initial, equity, stop);
            q > 0.0 ==>
              && q <= initial.quantity
              && Times(initial.price, q) <= Times(equity, c.maxPositionPct) / 100.0
              && (stop < initial.price ==> Times(initial.price - stop, q) <= Times(equity, c.riskPct) / 100.0)
  {
    hide Times;
    var q := CappedQuantity(c, initial, equity, stop);
    var byPosition := Times(equity, c.maxPositionPct) / 100.0;
    var byRisk := Times(equity, c.riskPct) / 100.0;
    if q > 0.0 {
      WithinBudget(q, byPosition, initial.price);
      if stop < initial.price {
        WithinBudget(q, byRisk, initial.price - stop);
      }
    }
  }

  /** Every accepted entry respects all four caps at once, at the price of this bar's open. */
  lemma EntryRespectsCaps(c: Config, order: Order, open: real, cash: real, equity: real, stop: real)
    requires ConfigOk(c)
    requires var r := CapEntryFill(c, order, open, cash, equity, stop); r.Ok? && r.value.Some?
    ensures var f := CapEntryFill(c, order, open, cash, equity, stop).value.value;
            && WithinCaps(c, order, f.price, f.quantity, f.fee, cash, equity, stop)
            && f.price == FillPrice(Buy, Trunc8(open)) && f.fee >= 0.0 && OnGrid8(f.quantity)
  {
    hide Simulate, CappedQuantity, Times, FillPrice, Trunc8, OnGrid8;
    var f := CapEntryFill(c, order, open, cash, equity, stop).value.value;
    SimulateIsExact(c, Buy, order.quantity, open);
    var initial := Simulate(c, Buy, order.quantity, open).value;
    var quantity := CappedQuantity(c, initial, equity, stop);
    CappedRespectsCaps(c, initial, equity, stop);
    SimulateIsExact(c, Buy, quantity, open);
    var first := Simulate(c, Buy, quantity, open).value;
    if Cost(first) > cash {
      var fewer := Min(first.quantity, Trunc8((cash - first.fee) / first.price));
      SimulateIsExact(c, Buy, fewer, open);
    }
    assert f.quantity <= quantity;
    SmallerCostsLess(f.price, f.quantity, quantity);
    if stop < f.price {
      SmallerCostsLess(f.price - stop, f.quantity, quantity);
    }
  }

  // ---------------------------------------------------------------- the books

  function Pnl(trades: seq<Trade>): real {
    if trades == [] then 0.0 else Pnl(trades[..|trades| - 1]) + trades[|trades| - 1].pnl
  }

  function Commissions(trades: seq<Trade>): real {
    if trades == [] then 0.0 else Commissions(trades[..|trades| - 1]) + trades[|trades| - 1].commission
  }

  function Slippages(trades: seq<Trade>): real {
    if trades == [] then 0.0 else Slippages(trades[..|trades| - 1]) + trades[|trades| - 1].slippage
  }

  function SharesSold(trades: seq<Trade>): real {
    if trades == [] then 0.0 else SharesSold(trades[..|trades| - 1]) + trades[|trades| - 1].quantity
  }

  function SharesBought(entries: seq<Entry>): real {
    if entries == [] then 0.0 else SharesBought(entries[..|entries| - 1]) + entries[|entries| - 1].quantity
  }

  /** Cash, what is held at its entry price and the entry fee not yet charged to a trade make
      up the initial capital and the profits so far; fees, slippage and shares tie out. */
  ghost predicate Balanced(c: Config, s: State) {
    var p := s.position;
    && s.cash + Times(p.quantity, p.price) + p.fee == c.capital + Pnl(s.trades)
    && s.commission == Commissions(s.trades) + p.fee
    && s.slippage == Slippages(s.trades) + p.slippage
    && SharesBought(s.entries) == SharesSold(s.trades) + p.quantity
  }

  /** A sale is paid for when the cash it found and what it brought in cover its fee. */
  predicate PaidFor(x: Sale) { x.fee <= x.cash + x.proceeds }

  ghost predicate Solvent(s: State) { forall x <- s.sales :: PaidFor(x) }

  /** How sales and cash move together from one state to a later one. */
  ghost predicate SalesStep(s: State, s': State) {
    && s.sales <= s'.sales
    && (Solvent(s') <==> Solvent(s) && s'.cash >= 0.0)
    && (Solvent(s) ==> forall k :: |s.sales| <= k < |s'.sales| ==> s'.sales[k].cash >= 0.0)
  }

  ghost predicate PositionOk(p: Position) {
    && p.quantity >= 0.0 && (p.quantity == 0.0 ==> p.fee == 0.0 && p.slippage == 0.0)
  }

  lemma NothingHeld(price: real)
    ensures Times(0.0, price) == 0.0
  {}

  lemma EntryAppend(entries: seq<Entry>, e: Entry)
    ensures SharesBought(entries + [e]) == SharesBought(entries) + e.quantity
  {
    assert (entries + [e])[..|entries|] == entries;
  }

  lemma TradeAppend(trades: seq<Trade>, t: Trade)
    ensures Pnl(trades + [t]) == Pnl(trades) + t.pnl
    ensures Commissions(trades + [t]) == Commissions(trades) + t.commission
    ensures Slippages(trades + [t]) == Slippages(trades) + t.slippage
    ensures SharesSold(trades + [t]) == SharesSold(trades) + t.quantity
  {
    assert (trades + [t])[..|trades|] == trades;
  }

  /** What a filled order writes: an entry sized against the cash of a flat account. */
  lemma FillWrites(c: Config, s: State, i: nat, t: Tick, order: Order)
    requires s.position.quantity == 0.0 && FillOrder(c, s, i, t, order).Ok?
    ensures var s' := FillOrder(c, s, i, t, order).value;
            var fill := CapEntryFill(c, order, t.bar.open, s.cash, s.cash, s.levels.stop);
            && fill.Ok?
            && (fill.value.None? ==> s' == s)
            && (fill.value.Some? ==>
                  var f := fill.value.value;
                  s' == s.(cash := s.cash - Cost(f),
                           position := Position(f.quantity, f.price, i, f.fee, f.slippage, s.position.halved),
                           entries := s.entries + [Entry(order, i, f.price, f.quantity, f.fee, f.slippage,
                                                         s.cash, s.cash, s.levels.stop)],
                           commission := s.commission + f.fee, slippage := s.slippage + f.slippage))
  {
    hide Times, CapEntryFill, Cost;
    NothingHeld(t.bar.open);
  }

  lemma FillBalances(c: Config, s: State, i: nat, t: Tick, order: Order)
    requires ConfigOk(c) && Balanced(c, s) && PositionOk(s.position) && s.position.quantity == 0.0
    requires FillOrder(c, s, i, t, order).Ok?
    ensures var s' := FillOrder(c, s, i, t, order).value;
            && Balanced(c, s') && PositionOk(s'.position)
            && (s'.cash >= 0.0 || s' == s)
  {
    hide Times, CapEntryFill, FillOrder, OnGrid8, FillPrice, Pnl, Commissions, Slippages, SharesSold, SharesBought;
    FillWrites(c, s, i, t, order);
    var fill := CapEntryFill(c, order, t.bar.open, s.cash, s.cash, s.levels.stop).value;
    if fill.Some? {
      EntryRespectsCaps(c, order, t.bar.open, s.cash, s.cash, s.levels.stop);
      NothingHeld(s.position.price);
      ProductsCommute(fill.value.price, fill.value.quantity);
      EntryAppend(s.entries, Entry(order, i, fill.value.price, fill.value.quantity, fill.value.fee, fill.value.slippage,
                                   s.cash, s.cash, s.levels.stop));
    }
  }

  lemma ProductsCommute(a: real, b: real)
    ensures Times(a, b) == Times(b, a)
  {}

  lemma SaleSplits(exit: real, entry: real, all: real, sold: real)
    ensures Times(exit - entry, sold) == Times(exit, sold) - Times(entry, sold)
    ensures Times(all - sold, entry) == Times(all, entry) - Times(entry, sold)
  {}

  /** The share of an amount that goes with `sold` of `all`. */
  function Share(amount: real, sold: real, all: real): real
    requires all != 0.0
  {
    Times(amount, sold) / all
  }

  lemma WholeShare(amount: real, all: real)
    requires all != 0.0
    ensures Share(amount, all, all) == amount
  {}

  /** What a sale writes, with the entry's fee and slippage shared out. */
  lemma SaleWrites(c: Config, s: State, i: nat, reason: ExitReason, quantity: real, fill: SimulatedFill)
    requires s.position.quantity != 0.0
    ensures var s' := SellPart(c, s, i, reason, quantity, fill);
            var p := s.position;
            var fee := Share(p.fee, quantity, p.quantity);
            var slippage := Share(p.slippage, quantity, p.quantity);
            && s' == s.(cash := s.cash + (Times(fill.price, quantity) - fill.fee), position := s'.position,
                        levels := s'.levels, trades := s'.trades, sales := s'.sales,
                        commission := s.commission + fill.fee, slippage := s.slippage + fill.slippage)
            && s'.sales == s.sales + [Sale(s.cash, Times(fill.price, quantity), fill.fee)]
            && s'.trades == s.trades + [Trade(p.price, fill.price, quantity,
                                              Times(fill.price - p.price, quantity) - (fee + fill.fee), p.index, i,
                                              reason, slippage + fill.slippage, fee + fill.fee)]
            && s'.position.price == p.price
            && (if p.quantity <= quantity
                then s'.position.quantity == s'.position.fee == s'.position.slippage == 0.0
                else && s'.position.quantity == p.quantity - quantity
                     && s'.position.fee == p.fee - fee && s'.position.slippage == p.slippage - slippage)
  {
    hide Times;
  }

  /** Selling any part of the position keeps the books, although the entry's fee and slippage
      are split over the parts. */
  lemma SellBalances(c: Config, s: State, i: nat, reason: ExitReason, quantity: real, fill: SimulatedFill)
    requires Balanced(c, s) && PositionOk(s.position) && 0.0 < quantity <= s.position.quantity
    ensures var s' := SellPart(c, s, i, reason, quantity, fill);
            && Balanced(c, s') && PositionOk(s'.position)
            && s'.position.quantity == s.position.quantity - quantity
            && s'.sales == s.sales + [Sale(s.cash, Times(fill.price, quantity), fill.fee)]
            && s'.cash == s.cash + Times(fill.price, quantity) - fill.fee
  {
    hide Times, Share, SellPart, Pnl, Commissions, Slippages, SharesSold;
    SaleWrites(c, s, i, reason, quantity, fill);
    var p := s.position;
    var s' := SellPart(c, s, i, reason, quantity, fill);
    SaleSplits(fill.price, p.price, p.quantity, quantity);
    TradeAppend(s.trades, s'.trades[|s.trades|]);
    if quantity == p.quantity {
      WholeShare(p.fee, quantity);
      WholeShare(p.slippage, quantity);
      NothingHeld(p.price);
    }
  }

  lemma ExitIsForPartOrAll(c: Config, s: State, i: nat, bar: Bar)
    requires s.position.quantity > 0.0
    ensures var e := ExitOf(c, s, i, bar);
            e.Exit? ==> 0.0 <= e.quantity <= s.position.quantity
  {}

  lemma BalanceIgnoresHalving(c: Config, s: State, halved: bool)
    ensures Balanced(c, s.(position := s.position.(halved := halved))) == Balanced(c, s)
  {
    hide Times, Pnl, Commissions, Slippages, SharesSold, SharesBought;
  }

  lemma SaleIsAStep(s: State, s': State, x: Sale)
    requires s'.sales == s.sales + [x] && x.cash == s.cash && s'.cash == x.cash + x.proceeds - x.fee
    requires Solvent(s) ==> s.cash >= 0.0
    ensures SalesStep(s, s')
  {
    assert forall y <- s.sales :: y in s'.sales;
    assert x in s'.sales;
  }

  lemma NoSaleIsAStep(s: State, s': State)
    requires s'.sales == s.sales && (s'.cash == s.cash || s'.cash >= 0.0)
    requires Solvent(s) ==> s.cash >= 0.0
    ensures SalesStep(s, s')
  {}

  lemma ExitBalances(c: Config, s: State, i: nat, t: Tick)
    requires Balanced(c, s) && PositionOk(s.position) && CheckExit(c, s, i, t).Ok?
    ensures var s' := CheckExit(c, s, i, t).value;
            && Balanced(c, s') && PositionOk(s'.position)
            && s'.position.quantity <= s.position.quantity
            && ((Solvent(s) ==> s.cash >= 0.0) ==> SalesStep(s, s'))
  {
    hide Times, ExitOf, SellPart, Simulate, Balanced, Solvent;
    var s' := CheckExit(c, s, i, t).value;
    if s.position.quantity > 0.0 && s.levels.stop > 0.0 {
      var exit := ExitOf(c, s, i, t.bar);
      ExitIsForPartOrAll(c, s, i, t.bar);
      var s1 := s.(position := s.position.(halved := exit.halved));
      BalanceIgnoresHalving(c, s, exit.halved);
      if exit.Exit? && exit.quote != 0.0 && exit.quantity > 0.0 {
        var fill := Simulate(c, Sell, exit.quantity, exit.quote).value;
        SellBalances(c, s1, i, exit.reason, exit.quantity, fill);
        var s2 := SellPart(c, s1, i, exit.reason, exit.quantity, fill);
        BalanceIgnoresRest(c, s2, s');
        if Solvent(s) ==> s.cash >= 0.0 {
          SaleIsAStep(s, s', Sale(s.cash, Times(fill.price, exit.quantity), fill.fee));
        }
      } else if Solvent(s) ==> s.cash >= 0.0 {
        NoSaleIsAStep(s, s');
      }
    } else if Solvent(s) ==> s.cash >= 0.0 {
      NoSaleIsAStep(s, s');
    }
  }

  // ---------------------------------------------------------------- every bar

  ghost predicate LedgerOk(c: Config, s: State) {
    && Balanced(c, s) && PositionOk(s.position)
    && |s.pending| <= 1 && (s.pending != [] ==> s.position.quantity == 0.0)
    && (Solvent(s) ==> s.cash >= 0.0)
  }

  /** The stop and the target a signal asks for, and its half target as far above its entry as
      the stop is below. */
  ghost function AskedLevels(g: Signal): Levels {
    Levels(g.stop, g.takeProfit, 2.0 * g.entry - g.stop)
  }

  /** The order waiting after bar k - 1 is what the strategy asked for on being shown that bar
      and those before it. */
  ghost predicate Signalled(c: Config, ticks: seq<Tick>, s: State, k: nat)
    requires 0 < k <= |ticks|
  {
    && s.history == ticks[..k] && s.position.quantity == 0.0
    && |s.pending| == 1 && s.pending[0].submitted == k - 1
    && s.previousClose.Some?
    && var signal := c.strategy(ViewOf(c, s, ticks[k - 1]));
       && signal.Some? && signal.value.side.Buy?
       && s.pending[0].quantity == signal.value.quantity > 0.0
       && s.levels == AskedLevels(signal.value)
  }

  /** An entry filled on the bar after its signal, in the same session, at that bar's open, and
      within every cap, measured against the account as it stood after the signal. */
  ghost predicate EntryOk(c: Config, ticks: seq<Tick>, e: Entry) {
    && e.index == e.order.submitted + 1 < |ticks|
    && ticks[e.index].session == ticks[e.order.submitted].session
    && e.price == FillPrice(Buy, Trunc8(ticks[e.index].bar.open))
    && After(c, ticks, e.index).Ok?
    && var s := After(c, ticks, e.index).value;
       && Signalled(c, ticks, s, e.index) && s.pending == [e.order]
       && e.cash == e.equity == s.cash && e.stop == s.levels.stop
       && WithinCaps(c, e.order, e.price, e.quantity, e.fee, s.cash, s.cash, s.levels.stop)
  }

  ghost predicate Tradable(c: Config, t: Tick) { !BeforeStart(c, t) && !AfterEnd(c, t) }

  /** An order waits only from one bar to the next. */
  ghost predicate Waiting(c: Config, ticks: seq<Tick>, s: State, k: nat)
    requires k <= |ticks|
  {
    s.pending != [] ==>
      && k > 0 && !s.stopped && s.eligible && Tradable(c, ticks[k - 1]) && Signalled(c, ticks, s, k)
  }

  /** The order s brings to bar i is the one that was waiting after bar i - 1, against the same
      account. */
  ghost predicate Brings(c: Config, ticks: seq<Tick>, s: State, i: nat)
    requires i < |ticks|
  {
    s.pending != [] ==>
      && i > 0 && ticks[i - 1].session == ticks[i].session
      && After(c, ticks, i).Ok?
      && var before := After(c, ticks, i).value;
         && Signalled(c, ticks, before, i) && before.pending == s.pending
         && before.cash == s.cash && before.levels == s.levels
  }

  /** The curve has one point for every traded bar, and the last one is the account now. */
  ghost predicate CurveOk(ticks: seq<Tick>, s: State, k: nat)
    requires k <= |ticks|
  {
    && |s.curve| == |s.traded|
    && (forall j :: 0 <= j < |s.traded| ==> s.traded[j] < k && s.curve[j].index == s.traded[j])
    && (s.curve != [] ==>
          var last := s.curve[|s.curve| - 1];
          last.cash == s.cash && last.equity == s.cash + Times(s.position.quantity, ticks[last.index].bar.close))
    && (s.curve == [] ==> s.position.quantity == 0.0)
  }

  ghost predicate Running(c: Config, ticks: seq<Tick>, s: State, k: nat)
    requires k <= |ticks|
  {
    && LedgerOk(c, s) && Waiting(c, ticks, s, k) && CurveOk(ticks, s, k)
    && (forall e <- s.entries :: EntryOk(c, ticks, e))
    && (!s.stopped ==> s.history == ticks[..k])
    && (k > 0 && !s.stopped ==> s.current == Some(ticks[k - 1].session))
  }

  lemma OneOrder(c: Config, s: State, i: nat, t: Tick, order: Order)
    ensures FillOrders(c, s, i, t, [order]) == FillOrder(c, s, i, t, order)
  {
    hide FillOrder;
    assert [order][..0] == [];
  }

  /** At most one order reaches a bar, the position is flat when it does, and it is gone
      afterwards. */
  lemma PendingIsProcessed(c: Config, ticks: seq<Tick>, s: State, i: nat)
    requires ConfigOk(c) && i < |ticks| && LedgerOk(c, s) && ProcessPending(c, s, i, ticks[i]).Ok?
    requires (forall e <- s.entries :: EntryOk(c, ticks, e)) && Brings(c, ticks, s, i)
    ensures var s' := ProcessPending(c, s, i, ticks[i]).value;
            && LedgerOk(c, s') && s'.pending == [] && (forall e <- s'.entries :: EntryOk(c, ticks, e))
            && s' == s.(cash := s'.cash, position := s'.position, pending := [], entries := s'.entries,
                        commission := s'.commission, slippage := s'.slippage)
            && SalesStep(s, s')
  {
    hide Balanced, Times, CapEntryFill, FillOrder, Signalled, After, WithinCaps, FillPrice, Trunc8, Solvent;
    if s.pending != [] {
      var order := s.pending[0];
      var clear := s.(pending := []);
      var t := ticks[i];
      assert s.pending == [order];
      OneOrder(c, clear, i, t, order);
      assert Balanced(c, clear) by { BalanceIgnoresRest(c, s, clear); }
      FillBalances(c, clear, i, t, order);
      FillWrites(c, clear, i, t, order);
      SignalledOnce(c, ticks, i);
      if CapEntryFill(c, order, t.bar.open, s.cash, s.cash, s.levels.stop).value.Some? {
        EntryRespectsCaps(c, order, t.bar.open, s.cash, s.cash, s.levels.stop);
      }
      SameSales(s, clear);
      SameSales(s, FillOrder(c, clear, i, t, order).value);
      NoSaleIsAStep(s, FillOrder(c, clear, i, t, order).value);
    } else {
      NoSaleIsAStep(s, s);
    }
  }

  lemma SignalledOnce(c: Config, ticks: seq<Tick>, i: nat)
    requires 0 < i <= |ticks| && After(c, ticks, i).Ok? && Signalled(c, ticks, After(c, ticks, i).value, i)
    ensures var s := After(c, ticks, i).value; |s.pending| == 1 && s.pending[0].submitted == i - 1
  {
    hide After;
  }

  lemma SameSales(s: State, s': State)
    requires s'.sales == s.sales
    ensures Solvent(s') == Solvent(s)
  {}

  lemma BalanceIgnoresRest(c: Config, s: State, s': State)
    requires s'.cash == s.cash && s'.position == s.position && s'.trades == s.trades && s'.entries == s.entries
    requires s'.commission == s.commission && s'.slippage == s.slippage
    ensures Balanced(c, s') == Balanced(c, s)
  {}

  lemma ExitTouchesOnlyItsOwn(c: Config, s: State, i: nat, t: Tick)
    requires CheckExit(c, s, i, t).Ok?
    ensures var s' := CheckExit(c, s, i, t).value;
            s' == s.(cash := s'.cash, position := s'.position, levels := s'.levels, capital := s'.capital,
                     trades := s'.trades, commission := s'.commission, slippage := s'.slippage, sales := s'.sales)
  {
    hide Times, ExitOf, Simulate;
  }

  lemma BarIsTraded(c: Config, ticks: seq<Tick>, s: State, i: nat)
    requires ConfigOk(c) && i < |ticks| && TradeBar(c, s, i, ticks[i]).Ok?
    requires LedgerOk(c, s) && (forall e <- s.entries :: EntryOk(c, ticks, e)) && CurveOk(ticks, s, i)
    requires Brings(c, ticks, s, i) && s.history == ticks[..i + 1]
    requires Tradable(c, ticks[i]) && s.eligible && !s.stopped && s.current == Some(ticks[i].session)
    ensures Running(c, ticks, TradeBar(c, s, i, ticks[i]).value, i + 1)
    ensures SalesStep(s, TradeBar(c, s, i, ticks[i]).value)
  {
    hide Balanced, Times, ProcessPending, CheckExit, PositionOk, EntryOk, Tradable, ViewOf, RecordClose, After, Solvent;
    var t := ticks[i];
    var s1 := s.(traded := s.traded + [i], session := s.session + [t]);
    BalanceIgnoresRest(c, s, s1);
    SameSales(s, s1);
    PendingIsProcessed(c, ticks, s1, i);
    var s2 := ProcessPending(c, s1, i, t).value;
    ExitBalances(c, s2, i, t);
    ExitTouchesOnlyItsOwn(c, s2, i, t);
    var s3 := CheckExit(c, s2, i, t).value;
    var s4 := AskStrategy(c, s3, i, t).value;
    BalanceIgnoresRest(c, s3, s4);
    AskedOnlyWhenFlat(c, ticks, s3, i);
    MarkTouchesOnlyItsOwn(c, s4, i, t);
    var s5 := Mark(c, s4, i, t);
    BalanceIgnoresRest(c, s4, s5);
    SalesOfTheExit(s, s2, s3, s5);
    StillSignalled(c, ticks, s4, s5, i + 1);
  }

  lemma SalesOfTheExit(s: State, before: State, after: State, s': State)
    requires before.sales == s.sales && SalesStep(before, after) && s'.sales == after.sales && s'.cash == after.cash
    ensures SalesStep(s, s')
  {}

  lemma StillSignalled(c: Config, ticks: seq<Tick>, s: State, s': State, k: nat)
    requires 0 < k <= |ticks| && s' == s.(closes := s'.closes, curve := s'.curve)
    ensures Signalled(c, ticks, s', k) == Signalled(c, ticks, s, k)
  {}

  lemma AskedOnlyWhenFlat(c: Config, ticks: seq<Tick>, s: State, i: nat)
    requires i < |ticks| && AskStrategy(c, s, i, ticks[i]).Ok?
    requires s.pending == [] && PositionOk(s.position) && s.history == ticks[..i + 1]
    ensures var s' := AskStrategy(c, s, i, ticks[i]).value;
            && s' == s.(pending := s'.pending, levels := s'.levels)
            && |s'.pending| <= 1
            && (s'.pending != [] ==> Signalled(c, ticks, s', i + 1))
  {}

  lemma MarkTouchesOnlyItsOwn(c: Config, s: State, i: nat, t: Tick)
    ensures Mark(c, s, i, t)
         == s.(closes := Mark(c, s, i, t).closes,
               curve := s.curve + [Point(i, s.cash + Times(s.position.quantity, t.bar.close), s.cash)])
  {
    hide Times;
  }

  /** The account of two states is the same; the session, and whether an order waits, may not be. */
  ghost predicate SameAccount(s: State, s': State) {
    && s'.cash == s.cash && s'.position == s.position && s'.trades == s.trades && s'.entries == s.entries
    && s'.commission == s.commission && s'.slippage == s.slippage && s'.sales == s.sales
    && s'.curve == s.curve && s'.traded == s.traded
  }

  lemma SeenBar(c: Config, s: State, t: Tick)
    ensures var s' := SeeBar(c, s, t);
            && SameAccount(s, s') && s'.current == Some(t.session) && s'.stopped == s.stopped
            && s'.history == s.history + [t] && s'.levels == s.levels
            && (if s.current == Some(t.session) then s'.pending == s.pending && s'.eligible == s.eligible
                else s'.pending == [])
            && SameAccount(s', RecordClose(c, s', t))
            && RecordClose(c, s', t) == s'.(closes := RecordClose(c, s', t).closes)
  {}

  lemma SameAccountRuns(c: Config, ticks: seq<Tick>, s: State, s': State, k: nat)
    requires k < |ticks| && Running(c, ticks, s, k) && SameAccount(s, s') && s'.pending == []
    requires s'.stopped || (s'.current == Some(ticks[k].session) && s'.history == ticks[..k + 1])
    ensures Running(c, ticks, s', k + 1) && SalesStep(s, s')
  {
    hide Times, EntryOk, Balanced, Solvent, Signalled;
    BalanceIgnoresRest(c, s, s');
    SameSales(s, s');
    NoSaleIsAStep(s, s');
  }

  lemma StepKeepsRunning(c: Config, ticks: seq<Tick>, s: State, i: nat)
    requires ConfigOk(c) && i < |ticks| && After(c, ticks, i) == Ok(s)
    requires Running(c, ticks, s, i) && Step(c, s, i, ticks[i]).Ok?
    ensures Running(c, ticks, Step(c, s, i, ticks[i]).value, i + 1)
    ensures SalesStep(s, Step(c, s, i, ticks[i]).value)
    ensures Accounted(c, s) ==> Accounted(c, Step(c, s, i, ticks[i]).value)
  {
    hide Balanced, Times, TradeBar, PositionOk, EntryOk, Terminal, SeeBar, RecordClose, After, Solvent, Signalled, Accounted;
    if Accounted(c, s) {
      StepIsAccounted(c, s, i, ticks[i]);
    }
    var t := ticks[i];
    if s.stopped {
      SameAccountRuns(c, ticks, s, s, i);
    } else {
      var s1 := SeeBar(c, s, t);
      SeenBar(c, s, t);
      assert ticks[..i] + [t] == ticks[..i + 1];
      if BeforeStart(c, t) {
        SameAccountRuns(c, ticks, s, RecordClose(c, s1, t), i);
      } else if AfterEnd(c, t) {
        SameAccountRuns(c, ticks, s, s1.(stopped := true), i);
      } else if !s1.eligible {
        SameAccountRuns(c, ticks, s, RecordClose(c, s1, t), i);
      } else {
        BalanceIgnoresRest(c, s, s1);
        SameSales(s, s1);
        BarIsTraded(c, ticks, s1, i);
      }
    }
  }

  // ---------------------------------------------------------------- what entries and sales did to the account

  /** What the entries cost, price and fee, and what the sales brought in less their fees. */
  function Spent(entries: seq<Entry>): real {
    if entries == [] then 0.0
    else
      var e := entries[|entries| - 1];
      Spent(entries[..|entries| - 1]) + (Times(e.price, e.quantity) + e.fee)
  }

  function EntryFees(entries: seq<Entry>): real {
    if entries == [] then 0.0 else EntryFees(entries[..|entries| - 1]) + entries[|entries| - 1].fee
  }

  function Received(sales: seq<Sale>): real {
    if sales == [] then 0.0
    else
      var x := sales[|sales| - 1];
      Received(sales[..|sales| - 1]) + (x.proceeds - x.fee)
  }

  function SaleFees(sales: seq<Sale>): real {
    if sales == [] then 0.0 else SaleFees(sales[..|sales| - 1]) + sales[|sales| - 1].fee
  }

  /** Bought at that price, on that bar. */
  ghost predicate Entered(entries: seq<Entry>, price: real, index: nat) {
    exists e <- entries :: e.price == price && e.index == index
  }

  /** Cash is the capital less what the entries cost plus what the sales brought in; each sale
      is one trade, at its exit price; what is held, and every trade, was bought at the price
      and on the bar of an entry. */
  ghost predicate Accounted(c: Config, s: State) {
    && s.cash == c.capital - Spent(s.entries) + Received(s.sales)
    && s.commission == EntryFees(s.entries) + SaleFees(s.sales)
    && |s.sales| == |s.trades|
    && (forall k :: 0 <= k < |s.sales| ==> s.sales[k].proceeds == Times(s.trades[k].exitPrice, s.trades[k].quantity))
    && (s.position.quantity > 0.0 ==> Entered(s.entries, s.position.price, s.position.index))
    && (forall t <- s.trades :: Entered(s.entries, t.entryPrice, t.entryIdx))
  }

  lemma SpendsOneMore(entries: seq<Entry>, e: Entry)
    ensures Spent(entries + [e]) == Spent(entries) + (Times(e.price, e.quantity) + e.fee)
    ensures EntryFees(entries + [e]) == EntryFees(entries) + e.fee
    ensures Entered(entries + [e], e.price, e.index)
    ensures forall price, index :: Entered(entries, price, index) ==> Entered(entries + [e], price, index)
  {
    hide Times;
    assert (entries + [e])[..|entries|] == entries;
    assert e in entries + [e];
    forall price, index | Entered(entries, price, index) ensures Entered(entries + [e], price, index) {
      var x :| x in entries && x.price == price && x.index == index;
      assert x in entries + [e];
    }
  }

  lemma ReceivesOneMore(sales: seq<Sale>, x: Sale)
    ensures Received(sales + [x]) == Received(sales) + (x.proceeds - x.fee)
    ensures SaleFees(sales + [x]) == SaleFees(sales) + x.fee
  {
    assert (sales + [x])[..|sales|] == sales;
  }

  lemma OrderIsAccounted(c: Config, s: State, i: nat, t: Tick, order: Order)
    requires Accounted(c, s) && FillOrder(c, s, i, t, order).Ok?
    ensures Accounted(c, FillOrder(c, s, i, t, order).value)
  {
    hide Times, CapEntryFill, Spent, EntryFees, Received, SaleFees, Entered;
    var equity := s.cash + Times(s.position.quantity, t.bar.open);
    var fill := CapEntryFill(c, order, t.bar.open, s.cash, equity, s.levels.stop).value;
    if fill.Some? {
      var f := fill.value;
      SpendsOneMore(s.entries, Entry(order, i, f.price, f.quantity, f.fee, f.slippage, s.cash, equity, s.levels.stop));
    }
  }

  lemma {:induction false} OrdersAreAccounted(c: Config, s: State, i: nat, t: Tick, orders: seq<Order>)
    requires Accounted(c, s) && FillOrders(c, s, i, t, orders).Ok?
    ensures Accounted(c, FillOrders(c, s, i, t, orders).value)
  {
    hide FillOrder, Accounted;
    if orders != [] {
      var n := |orders| - 1;
      OrdersAreAccounted(c, s, i, t, orders[..n]);
      OrderIsAccounted(c, FillOrders(c, s, i, t, orders[..n]).value, i, t, orders[n]);
    }
  }

  lemma SaleIsAccounted(c: Config, s: State, i: nat, reason: ExitReason, quantity: real, fill: SimulatedFill)
    requires Accounted(c, s) && s.position.quantity > 0.0
    ensures Accounted(c, SellPart(c, s, i, reason, quantity, fill))
  {
    hide Times, Share, SellPart, Spent, EntryFees, Received, SaleFees, Entered;
    SaleWrites(c, s, i, reason, quantity, fill);
    SaleKeepsIndex(c, s, i, reason, quantity, fill);
    ReceivesOneMore(s.sales, Sale(s.cash, Times(fill.price, quantity), fill.fee));
  }

  lemma SaleKeepsIndex(c: Config, s: State, i: nat, reason: ExitReason, quantity: real, fill: SimulatedFill)
    requires s.position.quantity != 0.0
    ensures SellPart(c, s, i, reason, quantity, fill).position.index == s.position.index
  {
    hide Times;
  }

  lemma ExitIsAccounted(c: Config, s: State, i: nat, t: Tick)
    requires Accounted(c, s) && CheckExit(c, s, i, t).Ok?
    ensures Accounted(c, CheckExit(c, s, i, t).value)
  {
    hide Times, ExitOf, Simulate, SellPart, Spent, EntryFees, Received, SaleFees, Entered;
    if s.position.quantity > 0.0 && s.levels.stop > 0.0 {
      var exit := ExitOf(c, s, i, t.bar);
      var s1 := s.(position := s.position.(halved := exit.halved));
      if exit.Exit? && exit.quote != 0.0 && exit.quantity > 0.0 {
        SaleIsAccounted(c, s1, i, exit.reason, exit.quantity, Simulate(c, Sell, exit.quantity, exit.quote).value);
      }
    }
  }

  lemma AccountIgnoresRest(c: Config, s: State, s': State)
    requires s'.cash == s.cash && s'.position == s.position && s'.trades == s.trades && s'.entries == s.entries
    requires s'.commission == s.commission && s'.sales == s.sales
    ensures Accounted(c, s') == Accounted(c, s)
  {
    hide Times, Spent, EntryFees, Received, SaleFees, Entered;
  }

  lemma TradingIsAccounted(c: Config, s: State, i: nat, t: Tick)
    requires Accounted(c, s) && TradeBar(c, s, i, t).Ok?
    ensures Accounted(c, TradeBar(c, s, i, t).value)
  {
    hide Accounted, Times, FillOrders, CheckExit, ViewOf, Mark;
    var s1 := s.(traded := s.traded + [i], session := s.session + [t]);
    AccountIgnoresRest(c, s, s1);
    if i > 0 && s1.pending != [] {
      AccountIgnoresRest(c, s1, s1.(pending := []));
      OrdersAreAccounted(c, s1.(pending := []), i, t, s1.pending);
    }
    var s2 := ProcessPending(c, s1, i, t).value;
    ExitIsAccounted(c, s2, i, t);
    var s3 := CheckExit(c, s2, i, t).value;
    var s4 := AskStrategy(c, s3, i, t).value;
    MarkTouchesOnlyItsOwn(c, s4, i, t);
    AccountIgnoresRest(c, s3, Mark(c, s4, i, t));
  }

  lemma StepIsAccounted(c: Config, s: State, i: nat, t: Tick)
    requires Accounted(c, s) && Step(c, s, i, t).Ok?
    ensures Accounted(c, Step(c, s, i, t).value)
  {
    hide Accounted, TradeBar, SeeBar, RecordClose;
    if !s.stopped {
      SeenBar(c, s, t);
      var s1 := SeeBar(c, s, t);
      AccountIgnoresRest(c, s, s1);
      AccountIgnoresRest(c, s, RecordClose(c, s1, t));
      AccountIgnoresRest(c, s, s1.(stopped := true));
      if Tradable(c, t) && s1.eligible {
        TradingIsAccounted(c, s1, i, t);
      }
    }
  }

  lemma {:induction false} RunIsAccounted(c: Config, ticks: seq<Tick>, k: nat)
    requires k <= |ticks| && After(c, ticks, k).Ok?
    ensures Accounted(c, After(c, ticks, k).value)
  {
    hide Step;
    if k > 0 {
      hide Accounted;
      RunIsAccounted(c, ticks, k - 1);
      StepIsAccounted(c, After(c, ticks, k - 1).value, k - 1, ticks[k - 1]);
    }
  }

  /** Over a whole run, final cash is the capital less the price and fee of every entry plus the
      proceeds of every sale less its fee, each sale is a trade at its exit price, and every
      trade was bought at the price and on the bar of an entry. */
  lemma CashIsWhatEntriesAndSalesMoved(c: Config, ticks: seq<Tick>)
    requires Simulated(c, ticks).Ok?
    ensures Accounted(c, Simulated(c, ticks).value)
  {
    hide After, SellPart, Simulate, Accounted;
    RunIsAccounted(c, ticks, |ticks|);
    var s, s' := After(c, ticks, |ticks|).value, Simulated(c, ticks).value;
    if s' != s {
      var last := s.traded[|s.traded| - 1];
      var fill := Simulate(c, Sell, s.position.quantity, ticks[last].bar.close).value;
      SaleIsAccounted(c, s, last, BacktestEnd, s.position.quantity, fill);
      AccountIgnoresRest(c, SellPart(c, s, last, BacktestEnd, s.position.quantity, fill), s');
    }
  }

  lemma {:induction false} RunKeepsRunning(c: Config, ticks: seq<Tick>, k: nat)
    requires ConfigOk(c) && k <= |ticks| && After(c, ticks, k).Ok?
    ensures Running(c, ticks, After(c, ticks, k).value, k)
  {
    hide Step, EntryOk, Signalled;
    if k == 0 {
      NothingHeld(0.0);
    } else {
      RunKeepsRunning(c, ticks, k - 1);
      StepKeepsRunning(c, ticks, After(c, ticks, k - 1).value, k - 1);
    }
  }

  // ---------------------------------------------------------------- main results

  /** The profit of a run is the sum of its trades' profits, its commission and slippage are
      the sums over its trades, every share bought is sold, and the equity curve ends at the
      final capital. */
  lemma RunConserves(c: Config, ticks: seq<Tick>)
    requires ConfigOk(c) && Simulated(c, ticks).Ok?
    ensures var s := Simulated(c, ticks).value;
            && s.cash - c.capital == Pnl(s.trades)
            && s.commission == Commissions(s.trades)
            && s.slippage == Slippages(s.trades)
            && SharesBought(s.entries) == SharesSold(s.trades)
            && s.position.quantity == 0.0
            && (s.curve != [] ==> s.curve[|s.curve| - 1].equity == s.curve[|s.curve| - 1].cash == s.cash)
            && (s.curve == [] ==> s.cash == c.capital && s.trades == [])
  {
    hide Times, After, SellPart, Simulate, EntryOk;
    RunKeepsRunning(c, ticks, |ticks|);
    var s := After(c, ticks, |ticks|).value;
    NothingHeld(s.position.price);
    CurveStartsWithTrading(c, ticks, |ticks|);
    if s.position.quantity > 0.0 {
      var last := s.traded[|s.traded| - 1];
      var fill := Simulate(c, Sell, s.position.quantity, ticks[last].bar.close).value;
      SellBalances(c, s, last, BacktestEnd, s.position.quantity, fill);
      var sold := SellPart(c, s, last, BacktestEnd, s.position.quantity, fill);
      NothingHeld(sold.position.price);
      SaleKeepsCurve(c, s, last, BacktestEnd, s.position.quantity, fill);
      BalanceIgnoresRest(c, sold, Simulated(c, ticks).value);
    } else if s.curve != [] {
      NothingHeld(ticks[s.curve[|s.curve| - 1].index].bar.close);
    }
  }

  lemma SaleKeepsCurve(c: Config, s: State, i: nat, reason: ExitReason, quantity: real, fill: SimulatedFill)
    requires s.position.quantity != 0.0
    ensures SellPart(c, s, i, reason, quantity, fill).curve == s.curve
    ensures SellPart(c, s, i, reason, quantity, fill).entries == s.entries
  {
    hide Times;
  }

  lemma {:induction false} CurveStartsWithTrading(c: Config, ticks: seq<Tick>, k: nat)
    requires ConfigOk(c) && k <= |ticks| && After(c, ticks, k).Ok?
    ensures After(c, ticks, k).value.curve == [] ==>
              After(c, ticks, k).value.trades == [] && After(c, ticks, k).value.cash == c.capital
  {
    hide TradeBar, SeeBar, RecordClose;
    if k > 0 {
      CurveStartsWithTrading(c, ticks, k - 1);
      var s := After(c, ticks, k - 1).value;
      var s1 := SeeBar(c, s, ticks[k - 1]);
      SeenBar(c, s, ticks[k - 1]);
      if TradeBar(c, s1, k - 1, ticks[k - 1]).Ok? {
        TradingMarks(c, s1, k - 1, ticks[k - 1]);
      }
    }
  }

  lemma TradingMarks(c: Config, s: State, i: nat, t: Tick)
    requires TradeBar(c, s, i, t).Ok?
    ensures TradeBar(c, s, i, t).value.curve != []
  {
    hide Times, ProcessPending, CheckExit, AskStrategy, Terminal;
  }

  /** Every entry of every run is what the strategy asked for, and fills on the bar after its
      signal, in the same session, at that bar's open, within the size, risk, request and cash
      caps at once; that price and fee are what the account paid, and what its trades start
      from. An order waits only while the account is flat, and never more than one. */
  lemma EntriesAreTimelyAndCapped(c: Config, ticks: seq<Tick>, k: nat)
    requires ConfigOk(c) && k <= |ticks| && After(c, ticks, k).Ok?
    ensures var s := After(c, ticks, k).value;
            && (forall e <- s.entries :: EntryOk(c, ticks, e))
            && Accounted(c, s)
            && |s.pending| <= 1
            && (s.pending != [] ==> k > 0 && Signalled(c, ticks, s, k))
  {
    hide After, EntryOk, Balanced, Signalled, Accounted;
    RunKeepsRunning(c, ticks, k);
    RunIsAccounted(c, ticks, k);
  }

  lemma {:induction false} CashThroughBars(c: Config, ticks: seq<Tick>, k: nat)
    requires ConfigOk(c) && k <= |ticks| && After(c, ticks, k).Ok?
    ensures var s := After(c, ticks, k).value;
            && (Solvent(s) <==> forall j :: 0 <= j <= k ==> After(c, ticks, j).Ok? && After(c, ticks, j).value.cash >= 0.0)
            && ((forall x <- s.sales :: x.fee <= x.proceeds) ==> Solvent(s))
  {
    hide Step, EntryOk, Signalled, Balanced, Times;
    if k > 0 {
      var s, s' := After(c, ticks, k - 1).value, After(c, ticks, k).value;
      CashThroughBars(c, ticks, k - 1);
      RunKeepsRunning(c, ticks, k - 1);
      StepKeepsRunning(c, ticks, s, k - 1);
      assert forall x <- s.sales :: x in s'.sales;
    }
  }

  /** Cash is non-negative after every bar and at the end exactly when every sale was paid for
      by the cash it found and what it brought in; so it is whenever every sale brought in at
      least its fee. */
  lemma CashIsNonNegativeExactlyWhen(c: Config, ticks: seq<Tick>)
    requires ConfigOk(c) && Simulated(c, ticks).Ok?
    ensures var s := Simulated(c, ticks).value;
            && (Solvent(s) <==>
                  && s.cash >= 0.0
                  && forall j :: 0 <= j <= |ticks| ==> After(c, ticks, j).Ok? && After(c, ticks, j).value.cash >= 0.0)
            && ((forall x <- s.sales :: x.fee <= x.proceeds) ==> Solvent(s))
  {
    hide Times, After, SellPart, Simulate, EntryOk, Solvent, Signalled;
    RunKeepsRunning(c, ticks, |ticks|);
    CashThroughBars(c, ticks, |ticks|);
    var s, s' := After(c, ticks, |ticks|).value, Simulated(c, ticks).value;
    if s' != s {
      var last := s.traded[|s.traded| - 1];
      var fill := Simulate(c, Sell, s.position.quantity, ticks[last].bar.close).value;
      SellBalances(c, s, last, BacktestEnd, s.position.quantity, fill);
      var sold := SellPart(c, s, last, BacktestEnd, s.position.quantity, fill);
      SaleIsAStep(s, s', Sale(s.cash, Times(fill.price, s.position.quantity), fill.fee));
      assert forall x <- s.sales :: x in s'.sales;
      FeesWithinProceeds(s, s');
    }
  }

  lemma FeesWithinProceeds(s: State, s': State)
    requires SalesStep(s, s') && ((forall x <- s.sales :: x.fee <= x.proceeds) ==> Solvent(s))
    ensures (forall x <- s'.sales :: x.fee <= x.proceeds) ==> Solvent(s')
  {
    assert forall x <- s.sales :: x in s'.sales;
  }

  /** The least a sale can bring in: one quantum of shares at one quantum of price. */
  const LEAST_PROCEEDS: real := 0.0000000000000001

  /** A sale brings in at least that, and pays the flat commission when there is one. */
  ghost predicate SaleOk(c: Config, x: Sale) {
    x.proceeds >= LEAST_PROCEEDS && (c.commission.Some? ==> x.fee == c.commission.value)
  }

  lemma ProductAtLeast(price: real, quantity: real)
    requires price >= QUANTUM && quantity >= QUANTUM
    ensures Times(price, quantity) >= LEAST_PROCEEDS
  {
    assert price * quantity >= QUANTUM * quantity;
  }

  lemma FillBringsIn(c: Config, quantity: real, quote: real)
    requires ConfigOk(c) && Simulate(c, Sell, quantity, quote).Ok?
    ensures var f := Simulate(c, Sell, quantity, quote).value;
            && Times(f.price, quantity) >= LEAST_PROCEEDS
            && (c.commission.Some? ==> f.fee == c.commission.value)
  {
    hide Trunc8, Round8, Fee, Round2, Times;
    SimulateIsExact(c, Sell, quantity, quote);
    var f := Simulate(c, Sell, quantity, quote).value;
    RoundingLandsOnGrid(Trunc8(quote) * (1.0 - ADVERSE_RATE));
    var n :| f.price == Units8(n);
    UnitsAtLeast(f.price, n);
    var m :| f.quantity == Units8(m);
    UnitsAtLeast(f.quantity, m);
    ProductAtLeast(f.price, quantity);
  }

  lemma ExitSaleOk(c: Config, s: State, i: nat, t: Tick)
    requires ConfigOk(c) && CheckExit(c, s, i, t).Ok?
    ensures forall x <- CheckExit(c, s, i, t).value.sales :: x in s.sales || SaleOk(c, x)
  {
    hide Times, ExitOf, Simulate, SellPart;
    if s.position.quantity > 0.0 && s.levels.stop > 0.0 {
      var exit := ExitOf(c, s, i, t.bar);
      var s1 := s.(position := s.position.(halved := exit.halved));
      if exit.Exit? && exit.quote != 0.0 && exit.quantity > 0.0 {
        FillBringsIn(c, exit.quantity, exit.quote);
        SaleWrites(c, s1, i, exit.reason, exit.quantity, Simulate(c, Sell, exit.quantity, exit.quote).value);
      }
    }
  }

  lemma StepSaleOk(c: Config, s: State, i: nat, t: Tick)
    requires ConfigOk(c) && Step(c, s, i, t).Ok?
    ensures forall x <- Step(c, s, i, t).value.sales :: x in s.sales || SaleOk(c, x)
  {
    hide Times, FillOrders, CheckExit, ViewOf, SeeBar, RecordClose, SaleOk, Mark;
    SeenBar(c, s, t);
    if !s.stopped && Tradable(c, t) && SeeBar(c, s, t).eligible {
      var seen := SeeBar(c, s, t);
      var s1 := seen.(traded := seen.traded + [i], session := seen.session + [t]);
      if i > 0 && s1.pending != [] {
        OrdersOnlyAdd(c, s1.(pending := []), i, t, s1.pending);
      }
      var s2 := ProcessPending(c, s1, i, t).value;
      ExitSaleOk(c, s2, i, t);
      MarkTouchesOnlyItsOwn(c, AskStrategy(c, CheckExit(c, s2, i, t).value, i, t).value, i, t);
    }
  }

  lemma {:induction false} SalesOk(c: Config, ticks: seq<Tick>, k: nat)
    requires ConfigOk(c) && k <= |ticks| && After(c, ticks, k).Ok?
    ensures forall x <- After(c, ticks, k).value.sales :: SaleOk(c, x)
  {
    hide Step, SaleOk;
    if k > 0 {
      SalesOk(c, ticks, k - 1);
      StepSaleOk(c, After(c, ticks, k - 1).value, k - 1, ticks[k - 1]);
    }
  }

  /** At a flat commission no greater than the least a sale can bring in, no strategy and no
      series ends in debt, or is ever in debt. */
  lemma SmallCommissionNeverOverdraws(c: Config, ticks: seq<Tick>)
    requires ConfigOk(c) && c.commission.Some? && c.commission.value <= LEAST_PROCEEDS
    requires Simulated(c, ticks).Ok?
    ensures Solvent(Simulated(c, ticks).value) && Simulated(c, ticks).value.cash >= 0.0
  {
    hide After, SellPart, Simulate, Times, Solvent;
    SalesOk(c, ticks, |ticks|);
    var s, s' := After(c, ticks, |ticks|).value, Simulated(c, ticks).value;
    if s' != s {
      var last := s.traded[|s.traded| - 1];
      FillBringsIn(c, s.position.quantity, ticks[last].bar.close);
      SaleWrites(c, s, last, BacktestEnd, s.position.quantity,
                 Simulate(c, Sell, s.position.quantity, ticks[last].bar.close).value);
    }
    CashIsNonNegativeExactlyWhen(c, ticks);
  }

  // ---------------------------------------------------------------- no look-ahead

  /** What a bar adds is dated with it. */
  ghost predicate Adds(s: State, s': State, i: nat) {
    && s.entries <= s'.entries && (forall k :: |s.entries| <= k < |s'.entries| ==> s'.entries[k].index >= i)
    && s.trades <= s'.trades && (forall k :: |s.trades| <= k < |s'.trades| ==> s'.trades[k].exitIdx >= i)
    && s.curve <= s'.curve && (forall k :: |s.curve| <= k < |s'.curve| ==> s'.curve[k].index >= i)
  }

  lemma {:induction false} OrdersOnlyAdd(c: Config, s: State, i: nat, t: Tick, orders: seq<Order>)
    requires FillOrders(c, s, i, t, orders).Ok?
    ensures var s' := FillOrders(c, s, i, t, orders).value;
            && Adds(s, s', i)
            && s' == s.(cash := s'.cash, position := s'.position, entries := s'.entries,
                        commission := s'.commission, slippage := s'.slippage)
  {
    hide CapEntryFill, Times, Cost;
    if orders != [] {
      OrdersOnlyAdd(c, s, i, t, orders[..|orders| - 1]);
    }
  }

  lemma ExitOnlyAdds(c: Config, s: State, i: nat, t: Tick)
    requires CheckExit(c, s, i, t).Ok?
    ensures Adds(s, CheckExit(c, s, i, t).value, i)
  {
    hide Times, ExitOf, Simulate;
  }

  lemma PendingOnlyAdds(c: Config, s: State, i: nat, t: Tick)
    requires ProcessPending(c, s, i, t).Ok?
    ensures var s' := ProcessPending(c, s, i, t).value;
            && Adds(s, s', i) && s'.traded == s.traded && s'.closes == s.closes
  {
    hide FillOrders;
    if i > 0 && s.pending != [] {
      OrdersOnlyAdd(c, s.(pending := []), i, t, s.pending);
    }
  }

  lemma TradingOnlyAdds(c: Config, s: State, i: nat, t: Tick)
    requires TradeBar(c, s, i, t).Ok?
    ensures Adds(s, TradeBar(c, s, i, t).value, i)
  {
    hide Times, ProcessPending, CheckExit, ViewOf, Mark;
    var s1 := s.(traded := s.traded + [i], session := s.session + [t]);
    PendingOnlyAdds(c, s1, i, t);
    var s2 := ProcessPending(c, s1, i, t).value;
    ExitOnlyAdds(c, s2, i, t);
    MarkTouchesOnlyItsOwn(c, AskStrategy(c, CheckExit(c, s2, i, t).value, i, t).value, i, t);
  }

  lemma StepOnlyAdds(c: Config, s: State, i: nat, t: Tick)
    requires Step(c, s, i, t).Ok?
    ensures Adds(s, Step(c, s, i, t).value, i)
  {
    hide TradeBar, SeeBar, RecordClose;
    SeenBar(c, s, t);
    if !s.stopped && Tradable(c, t) && SeeBar(c, s, t).eligible {
      TradingOnlyAdds(c, SeeBar(c, s, t), i, t);
    }
  }

  lemma {:induction false} BarsOnlyAdd(c: Config, ticks: seq<Tick>, k: nat, n: nat)
    requires k <= n <= |ticks| && After(c, ticks, n).Ok?
    ensures After(c, ticks, k).Ok? && Adds(After(c, ticks, k).value, After(c, ticks, n).value, k)
  {
    hide Step;
    if k < n {
      BarsOnlyAdd(c, ticks, k, n - 1);
      StepOnlyAdds(c, After(c, ticks, n - 1).value, n - 1, ticks[n - 1]);
    }
  }

  /** What is published about the bars before bar k is what stood after them, but for the sale
      that closes a run out and the point it rewrites. */
  ghost predicate Published(s: State, done: State, k: nat) {
    && s.entries <= done.entries && (forall j :: |s.entries| <= j < |done.entries| ==> done.entries[j].index >= k)
    && s.trades <= done.trades
    && (forall j :: |s.trades| <= j < |done.trades| ==> done.trades[j].exitIdx >= k || done.trades[j].reason.BacktestEnd?)
    && |s.curve| <= |done.curve|
    && (forall j :: 0 <= j < |s.curve| && j < |done.curve| - 1 ==> done.curve[j] == s.curve[j])
    && (forall j :: |s.curve| <= j < |done.curve| ==> done.curve[j].index >= k)
  }

  lemma RunPublishes(c: Config, ticks: seq<Tick>, k: nat)
    requires k <= |ticks| && Simulated(c, ticks).Ok?
    ensures After(c, ticks, k).Ok? && Published(After(c, ticks, k).value, Simulated(c, ticks).value, k)
  {
    hide After, Simulate, Times;
    BarsOnlyAdd(c, ticks, k, |ticks|);
  }

  lemma {:induction false} SamePast(c: Config, ticks: seq<Tick>, ticks': seq<Tick>, k: nat)
    requires k <= |ticks| && k <= |ticks'| && forall i :: 0 <= i < k ==> ticks[i] == ticks'[i]
    ensures After(c, ticks, k) == After(c, ticks', k)
  {
    hide Step;
    if k > 0 {
      SamePast(c, ticks, ticks', k - 1);
    }
  }

  /** No look-ahead: two finished runs over series that agree on their first k bars publish the
      same entries on those bars, the same trades closed on them (but for the sale that closes
      a run out), and the same curve points of them (but for the last of a curve). */
  lemma NoLookAhead(c: Config, ticks: seq<Tick>, ticks': seq<Tick>, k: nat)
    requires k <= |ticks| && k <= |ticks'| && forall i :: 0 <= i < k ==> ticks[i] == ticks'[i]
    requires Simulated(c, ticks).Ok? && Simulated(c, ticks').Ok?
    ensures var r, r' := Simulated(c, ticks).value, Simulated(c, ticks').value;
            && (forall e: Entry :: e.index < k ==> (e in r.entries <==> e in r'.entries))
            && (forall t: Trade :: t.exitIdx < k && !t.reason.BacktestEnd? ==> (t in r.trades <==> t in r'.trades))
            && (forall j :: 0 <= j < |r.curve| - 1 && j < |r'.curve| - 1 && r.curve[j].index < k ==>
                  r'.curve[j] == r.curve[j])
  {
    hide After, CloseOut, Simulated;
    SamePast(c, ticks, ticks', k);
    RunPublishes(c, ticks, k);
    RunPublishes(c, ticks', k);
    var s := After(c, ticks, k).value;
    SameBefore(s, Simulated(c, ticks).value, Simulated(c, ticks').value, k);
    SameBefore(s, Simulated(c, ticks').value, Simulated(c, ticks).value, k);
  }

  lemma SameBefore(s: State, r: State, r': State, k: nat)
    requires Published(s, r, k) && Published(s, r', k)
    ensures forall e: Entry :: e.index < k && e in r.entries ==> e in r'.entries
    ensures forall t: Trade :: t.exitIdx < k && !t.reason.BacktestEnd? && t in r.trades ==> t in r'.trades
    ensures forall j :: 0 <= j < |r.curve| - 1 && j < |r'.curve| - 1 && r.curve[j].index < k ==> r'.curve[j] == r.curve[j]
  {
    forall e: Entry | e.index < k && e in r.entries ensures e in r'.entries {
      var j :| 0 <= j < |r.entries| && r.entries[j] == e;
      assert r'.entries[j] == s.entries[j] == e;
    }
    forall t: Trade | t.exitIdx < k && !t.reason.BacktestEnd? && t in r.trades ensures t in r'.trades {
      var j :| 0 <= j < |r.trades| && r.trades[j] == t;
      assert r'.trades[j] == s.trades[j] == t;
    }
  }

  /** Within a bar, an entry sees the opening price and nothing else of it: two series that
      agree before bar k, and on when it is and where it opens, have the same entries after it,
      whatever its high, low, close and volume. */
  lemma EntriesSeeOnlyTheOpen(c: Config, ticks: seq<Tick>, ticks': seq<Tick>, k: nat)
    requires k < |ticks| && k < |ticks'| && forall i :: 0 <= i < k ==> ticks[i] == ticks'[i]
    requires ticks'[k].time == ticks[k].time && ticks'[k].session == ticks[k].session
    requires ticks'[k].bar.open == ticks[k].bar.open
    requires After(c, ticks, k + 1).Ok? && After(c, ticks', k + 1).Ok?
    ensures After(c, ticks', k + 1).value.entries == After(c, ticks, k + 1).value.entries
  {
    hide Step;
    SamePast(c, ticks, ticks', k);
    StepEntersAtTheOpen(c, After(c, ticks, k).value, k, ticks[k], ticks'[k]);
  }

  lemma StepEntersAtTheOpen(c: Config, s: State, i: nat, t: Tick, t': Tick)
    requires t'.time == t.time && t'.session == t.session && t'.bar.open == t.bar.open
    requires Step(c, s, i, t).Ok? && Step(c, s, i, t').Ok?
    ensures Step(c, s, i, t').value.entries == Step(c, s, i, t).value.entries
  {
    hide Times, FillOrders, CheckExit, ViewOf, SeeBar, RecordClose;
    SeenBar(c, s, t);
    SeenBar(c, s, t');
    var s1, s1' := SeeBar(c, s, t), SeeBar(c, s, t');
    SameWait(c, s, t, t');
    if !s.stopped && Tradable(c, t) && s1.eligible {
      var s2 := s1.(traded := s1.traded + [i], session := s1.session + [t]);
      var s2' := s1'.(traded := s1'.traded + [i], session := s1'.session + [t']);
      SameEntries(c, s2, s2', i, t, t');
      EntriesAreMadeFirst(c, s2, i, t);
      EntriesAreMadeFirst(c, s2', i, t');
    }
  }

  lemma SameWait(c: Config, s: State, t: Tick, t': Tick)
    requires t'.time == t.time && t'.session == t.session
    ensures SeeBar(c, s, t') == SeeBar(c, s, t).(history := SeeBar(c, s, t').history)
  {}

  lemma EntriesAreMadeFirst(c: Config, s: State, i: nat, t: Tick)
    requires ProcessPending(c, s, i, t).Ok? && CheckExit(c, ProcessPending(c, s, i, t).value, i, t).Ok?
    requires AskStrategy(c, CheckExit(c, ProcessPending(c, s, i, t).value, i, t).value, i, t).Ok?
    ensures var s' := AskStrategy(c, CheckExit(c, ProcessPending(c, s, i, t).value, i, t).value, i, t).value;
            Mark(c, s', i, t).entries == ProcessPending(c, s, i, t).value.entries
  {
    hide Times, FillOrders, CheckExit, ViewOf, RecordClose, ProcessPending;
    ExitTouchesOnlyItsOwn(c, ProcessPending(c, s, i, t).value, i, t);
    MarkTouchesOnlyItsOwn(c, AskStrategy(c, CheckExit(c, ProcessPending(c, s, i, t).value, i, t).value, i, t).value, i, t);
  }

  lemma SameEntries(c: Config, s: State, s': State, i: nat, t: Tick, t': Tick)
    requires t'.bar.open == t.bar.open
    requires s' == s.(history := s'.history, session := s'.session)
    requires ProcessPending(c, s, i, t).Ok? && ProcessPending(c, s', i, t').Ok?
    ensures ProcessPending(c, s', i, t').value.entries == ProcessPending(c, s, i, t).value.entries
  {
    hide FillOrders;
    if i > 0 && s.pending != [] {
      SameFills(c, s.(pending := []), s'.(pending := []), i, t, t', s.pending);
    }
  }

  lemma SameFill(c: Config, s: State, s': State, i: nat, t: Tick, t': Tick, order: Order)
    requires t'.bar.open == t.bar.open && s' == s.(history := s'.history, session := s'.session)
    ensures var r, r' := FillOrder(c, s, i, t, order), FillOrder(c, s', i, t', order);
            && (r.Ok? <==> r'.Ok?)
            && (r.Ok? ==> r'.value == r.value.(history := s'.history, session := s'.session)
                          && r.value.history == s.history && r.value.session == s.session)
  {
    hide CapEntryFill, Times, Cost;
  }

  lemma {:induction false} SameFills(c: Config, s: State, s': State, i: nat, t: Tick, t': Tick, orders: seq<Order>)
    requires t'.bar.open == t.bar.open && s' == s.(history := s'.history, session := s'.session)
    ensures var r, r' := FillOrders(c, s, i, t, orders), FillOrders(c, s', i, t', orders);
            && (r.Ok? <==> r'.Ok?)
            && (r.Ok? ==> r'.value == r.value.(history := s'.history, session := s'.session)
                          && r.value.history == s.history && r.value.session == s.session)
  {
    hide FillOrder;
    if orders != [] {
      var n := |orders| - 1;
      SameFills(c, s, s', i, t, t', orders[..n]);
      if FillOrders(c, s, i, t, orders[..n]).Ok? {
        SameFill(c, FillOrders(c, s, i, t, orders[..n]).value, FillOrders(c, s', i, t', orders[..n]).value,
                 i, t, t', orders[n]);
      }
    }
  }
}
