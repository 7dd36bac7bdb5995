/** When a backtest asks for an entry, what it shows the strategy, and how much it then buys. */
module BacktestEntries {
  import opened Decimals
  import opened Outcomes
  import opened PaperPolicy
  import opened DataContract
  import opened Backtest
  import opened BacktestProofs
  import opened BacktestSessions
  import opened BacktestTrades

  // ---------------------------------------------------------------- the size of an entry

  ghost function BuyPrice(open: real): real { Round8(Trunc8(open) * 1.001) }

  /** So many shares are within the request, the position budget and the risk budget. */
  ghost predicate Allowed(c: Config, asked: real, price: real, equity: real, stop: real, quantity: real) {
    && quantity <= asked
    && Times(price, quantity) <= Times(equity, c.maxPositionPct) / 100.0
    && (stop < price ==> Times(price - stop, quantity) <= Times(equity, c.riskPct) / 100.0)
  }

  /** The most shares within all three. */
  ghost predicate IsCap(c: Config, asked: real, price: real, equity: real, stop: real, cap: real) {
    && OnGrid8(cap) && 0.0 < cap
    && Allowed(c, asked, price, equity, stop, cap) && !Allowed(c, asked, price, equity, stop, cap + QUANTUM)
  }

  lemma BudgetInShares(quantity: real, budget: real, price: real)
    requires price > 0.0
    ensures quantity <= budget / price <==> Times(price, quantity) <= budget
  {
    var x := budget / price;
    assert x * price == budget;
    if quantity <= x {
      assert price * quantity <= price * x;
    } else {
      assert price * quantity > price * x;
    }
  }

  lemma MostOnGrid(m: real, cap: real)
    requires OnGrid8(cap)
    ensures cap <= m < cap + QUANTUM && 0.0 <= cap ==> Trunc8(m) == cap
    ensures cap > 0.0 && cap <= m ==> cap <= Trunc8(m)
    ensures m >= QUANTUM ==> Trunc8(m) > 0.0
  {
    var n :| cap == Units8(n);
    var x := m * 100000000.0;
    if 0.0 <= cap <= m {
      assert n as real <= x;
      assert n <= x.Floor;
    }
  }

  lemma CapIsCappedQuantity(c: Config, initial: SimulatedFill, asked: real, equity: real, stop: real, cap: real)
    requires initial.price > 0.0 && initial.quantity == Trunc8(asked) && asked > 0.0
    ensures var q := CappedQuantity(c, initial, equity, stop);
            && (IsCap(c, asked, initial.price, equity, stop, cap) ==> q == cap)
            && (q > 0.0 ==> IsCap(c, asked, initial.price, equity, stop, q))
            && (q > 0.0 <==> Allowed(c, asked, initial.price, equity, stop, QUANTUM))
  {
    hide Times, Trunc8, OnGrid8;
    var q := CappedQuantity(c, initial, equity, stop);
    CapBound(c, initial, asked, equity, stop, cap);
    CapBound(c, initial, asked, equity, stop, cap + QUANTUM);
    CapBound(c, initial, asked, equity, stop, q);
    CapBound(c, initial, asked, equity, stop, q + QUANTUM);
    CapBound(c, initial, asked, equity, stop, QUANTUM);
    var m := CapLimit(c, initial, asked, equity, stop);
    QuantumOnGrid();
    RoundingLandsOnGrid(m);
    MostOnGrid(m, QUANTUM);
    LimitRounds(c, initial, asked, equity, stop);
    if q > 0.0 {
      QuantumIsLeast(q);
    }
    if IsCap(c, asked, initial.price, equity, stop, cap) {
      MostOnGrid(m, cap);
    }
  }

  lemma QuantumOnGrid()
    ensures OnGrid8(QUANTUM)
  {
    assert QUANTUM == Units8(1);
  }

  ghost function CapLimit(c: Config, initial: SimulatedFill, asked: real, equity: real, stop: real): real
    requires initial.price > 0.0
  {
    var byPosition := Min(asked, Times(equity, c.maxPositionPct) / 100.0 / initial.price);
    var risk := initial.price - stop;
    if risk > 0.0 then Min(byPosition, Times(equity, c.riskPct) / 100.0 / risk) else byPosition
  }

  lemma CapBound(c: Config, initial: SimulatedFill, asked: real, equity: real, stop: real, q: real)
    requires initial.price > 0.0
    ensures Allowed(c, asked, initial.price, equity, stop, q) <==> q <= CapLimit(c, initial, asked, equity, stop)
  {
    hide Times;
    BudgetInShares(q, Times(equity, c.maxPositionPct) / 100.0, initial.price);
    if stop < initial.price {
      BudgetInShares(q, Times(equity, c.riskPct) / 100.0, initial.price - stop);
    }
  }

  /** Truncating the request before the caps or after them is the same. */
  lemma LimitRounds(c: Config, initial: SimulatedFill, asked: real, equity: real, stop: real)
    requires initial.price > 0.0 && initial.quantity == Trunc8(asked) && asked > 0.0
    ensures CappedQuantity(c, initial, equity, stop) == Trunc8(CapLimit(c, initial, asked, equity, stop))
  {
    hide Times, Trunc8, OnGrid8;
    var q := CappedQuantity(c, initial, equity, stop);
    var byPosition := Times(equity, c.maxPositionPct) / 100.0 / initial.price;
    var risk := initial.price - stop;
    var rest := if risk > 0.0 then Min(byPosition, Times(equity, c.riskPct) / 100.0 / risk) else byPosition;
    TruncOfMin(asked, rest);
  }

  lemma TruncOfMin(asked: real, rest: real)
    requires asked > 0.0
    ensures Trunc8(Min(Trunc8(asked), rest)) == Trunc8(Min(asked, rest))
  {
    hide OnGrid8, Trunc8;
    RoundingLandsOnGrid(asked);
    RoundingFixesGrid(Trunc8(asked));
    if Trunc8(asked) <= rest < asked {
      MostOnGrid(rest, Trunc8(asked));
    }
  }

  /** An entry is refused exactly when nothing is asked for, or it or the open vanishes at eight
      places, or a stop is required and not below the price. */
  lemma EntryRefusedExactlyWhen(c: Config, order: Order, open: real, cash: real, equity: real, stop: real)
    requires ConfigOk(c)
    ensures CapEntryFill(c, order, open, cash, equity, stop).Refused? <==>
              || order.quantity <= 0.0 || Trunc8(order.quantity) <= 0.0 || Trunc8(open) <= 0.0
              || (c.stopRequired && !(0.0 < stop < BuyPrice(open)))
  {
    hide Times, Trunc8, OnGrid8, Round8, CappedQuantity, Simulate, Cost;
    SimulatedBuy(c, order.quantity, open);
    if Simulate(c, Buy, order.quantity, open).Ok? {
      var quantity := CappedQuantity(c, Simulate(c, Buy, order.quantity, open).value, equity, stop);
      CappedOnGrid(c, Simulate(c, Buy, order.quantity, open).value, equity, stop);
      RoundingFixesGrid(quantity);
      SimulatedBuy(c, quantity, open);
      if quantity > 0.0 && Cost(Simulate(c, Buy, quantity, open).value) > cash {
        var fill := Simulate(c, Buy, quantity, open).value;
        var fewer := Min(fill.quantity, Trunc8((cash - fill.fee) / fill.price));
        RoundingLandsOnGrid((cash - fill.fee) / fill.price);
        RoundingFixesGrid(fewer);
        SimulatedBuy(c, fewer, open);
      }
    }
  }

  lemma CappedOnGrid(c: Config, initial: SimulatedFill, equity: real, stop: real)
    requires initial.price != 0.0
    ensures OnGrid8(CappedQuantity(c, initial, equity, stop))
  {
    hide Trunc8, OnGrid8, Times;
    var byPosition := Min(initial.quantity, Times(equity, c.maxPositionPct) / 100.0 / initial.price);
    var risk := initial.price - stop;
    RoundingLandsOnGrid(if risk > 0.0 then Min(byPosition, Times(equity, c.riskPct) / 100.0 / risk) else byPosition);
  }

  lemma SimulatedBuy(c: Config, quantity: real, open: real)
    ensures Simulate(c, Buy, quantity, open).Ok? <==> Trunc8(quantity) > 0.0 && Trunc8(open) > 0.0
    ensures Simulate(c, Buy, quantity, open).Ok? ==>
              var f := Simulate(c, Buy, quantity, open).value;
              && f.price == BuyPrice(open) > 0.0 && f.quantity == Trunc8(quantity)
              && f.fee == FeePaid(c, f.price, f.quantity)
              && f.slippage == Round2(Times(Abs(f.price - Trunc8(open)), f.quantity))
  {
    hide Round8, Trunc8, Times, Round2;
    PolicyDecides(Buy, quantity, open, Standard);
    if Simulate(c, Buy, quantity, open).Ok? {
      RoundingLandsOnGrid(open);
      PriceIsAdverse(Buy, Trunc8(open));
    }
  }

  lemma FeeGrows(c: Config, price: real, less: real, more: real)
    requires price > 0.0 && less <= more
    ensures FeePaid(c, price, less) <= FeePaid(c, price, more)
  {
    hide Round8, Times;
    SmallerCostsLess(price, less, more);
    Round8Monotone(Max(0.01, Times(price, less) * 0.0002), Max(0.01, Times(price, more) * 0.0002));
  }

  /** The entry bought: the most shares within the caps, and if the cash does not cover those
      and their fee, the most that it covers beside that fee. */
  ghost predicate IsEntry(c: Config, open: real, cash: real, cap: real, f: SimulatedFill) {
    var price, fee := BuyPrice(open), FeePaid(c, BuyPrice(open), cap);
    && f.price == price && OnGrid8(f.quantity) && 0.0 < f.quantity <= cap
    && (Times(price, cap) + fee <= cash ==> f.quantity == cap)
    && (Times(price, cap) + fee > cash ==> Times(price, f.quantity) + fee <= cash < Times(price, f.quantity + QUANTUM) + fee)
    && f.fee == FeePaid(c, price, f.quantity)
    && f.slippage == Round2(Times(Abs(price - Trunc8(open)), f.quantity))
  }

  /** An entry is made exactly when one quantum of shares is within the caps and, beside the fee
      of the most shares within them, within the cash; and it is then the largest such entry. */
  lemma EntryIsLargest(c: Config, order: Order, open: real, cash: real, equity: real, stop: real)
    requires ConfigOk(c) && CapEntryFill(c, order, open, cash, equity, stop).Ok?
    ensures var r := CapEntryFill(c, order, open, cash, equity, stop).value;
            var price := BuyPrice(open);
            && (!Allowed(c, order.quantity, price, equity, stop, QUANTUM) ==> r.None?)
            && (Allowed(c, order.quantity, price, equity, stop, QUANTUM) ==>
                  exists cap :: IsCap(c, order.quantity, price, equity, stop, cap))
            && forall cap :: IsCap(c, order.quantity, price, equity, stop, cap) ==>
                 && (r.Some? <==> Times(price, QUANTUM) + FeePaid(c, price, cap) <= cash)
                 && (r.Some? ==> IsEntry(c, open, cash, cap, r.value))
  {
    hide Times, Trunc8, OnGrid8, Round8, CappedQuantity, Simulate, Cost, FeePaid, IsEntry, CapEntryFill, IsCap, Allowed;
    EntryStarts(c, order, open, cash, equity, stop);
    var initial := Simulate(c, Buy, order.quantity, open).value;
    var q := CappedQuantity(c, initial, equity, stop);
    forall cap ensures CapIsQ(c, order, open, equity, stop, q, cap) {
      CapIsCappedQuantity(c, initial, order.quantity, equity, stop, cap);
    }
    if q > 0.0 {
      assert CapIsQ(c, order, open, equity, stop, q, q);
      LargestWithinCash(c, order, open, cash, equity, stop, q);
    }
    forall cap | IsCap(c, order.quantity, BuyPrice(open), equity, stop, cap) ensures cap == q && q > 0.0 {
      assert CapIsQ(c, order, open, equity, stop, q, cap);
      CapIsPositive(c, order.quantity, BuyPrice(open), equity, stop, cap);
    }
    assert CapIsQ(c, order, open, equity, stop, q, 0.0);
  }

  lemma CapIsPositive(c: Config, asked: real, price: real, equity: real, stop: real, cap: real)
    requires IsCap(c, asked, price, equity, stop, cap)
    ensures cap > 0.0
  {}

  ghost predicate CapIsQ(c: Config, order: Order, open: real, equity: real, stop: real, q: real, cap: real) {
    && (IsCap(c, order.quantity, BuyPrice(open), equity, stop, cap) ==> q == cap)
    && (q > 0.0 ==> IsCap(c, order.quantity, BuyPrice(open), equity, stop, q))
    && (q > 0.0 <==> Allowed(c, order.quantity, BuyPrice(open), equity, stop, QUANTUM))
  }

  lemma EntryStarts(c: Config, order: Order, open: real, cash: real, equity: real, stop: real)
    requires ConfigOk(c) && CapEntryFill(c, order, open, cash, equity, stop).Ok?
    ensures order.quantity > 0.0 && Simulate(c, Buy, order.quantity, open).Ok?
    ensures var initial := Simulate(c, Buy, order.quantity, open).value;
            && initial.price == BuyPrice(open) > 0.0 && initial.quantity == Trunc8(order.quantity)
            && (CappedQuantity(c, initial, equity, stop) <= 0.0 ==>
                  CapEntryFill(c, order, open, cash, equity, stop).value.None?)
  {
    hide Times, Trunc8, OnGrid8, Round8, CappedQuantity, Simulate, Cost;
    SimulatedBuy(c, order.quantity, open);
  }

  lemma LargestWithinCash(c: Config, order: Order, open: real, cash: real, equity: real, stop: real, q: real)
    requires ConfigOk(c) && CapEntryFill(c, order, open, cash, equity, stop).Ok?
    requires Simulate(c, Buy, order.quantity, open).Ok? && Simulate(c, Buy, order.quantity, open).value.price > 0.0
    requires q == CappedQuantity(c, Simulate(c, Buy, order.quantity, open).value, equity, stop) > 0.0
    ensures var r := CapEntryFill(c, order, open, cash, equity, stop).value;
            && (r.Some? <==> Times(BuyPrice(open), QUANTUM) + FeePaid(c, BuyPrice(open), q) <= cash)
            && (r.Some? ==> IsEntry(c, open, cash, q, r.value))
  {
    hide Times, Trunc8, OnGrid8, Round8, CappedQuantity, Simulate, FeePaid;
    CappedOnGrid(c, Simulate(c, Buy, order.quantity, open).value, equity, stop);
    RoundingFixesGrid(q);
    SimulatedBuy(c, q, open);
    var price, fee := BuyPrice(open), FeePaid(c, BuyPrice(open), q);
    QuantumIsLeast(q);
    SmallerCostsLess(price, QUANTUM, q);
    if Simulate(c, Buy, q, open).Ok? && Times(price, q) + fee > cash {
      var spendable := cash - fee;
      var most := Trunc8(spendable / price);
      var fewer := Min(q, most);
      MostForMoney(spendable, price, q);
      RoundingLandsOnGrid(spendable / price);
      RoundingFixesGrid(fewer);
      SimulatedBuy(c, fewer, open);
      if fewer > 0.0 {
        FeeGrows(c, price, fewer, q);
      }
    }
  }

  lemma QuantumIsLeast(q: real)
    requires OnGrid8(q) && q > 0.0
    ensures q >= QUANTUM
  {
    var n :| q == Units8(n);
    UnitsAtLeast(q, n);
  }

  lemma QuantumCosts(price: real)
    requires price > 0.0
    ensures Times(price, QUANTUM) > 0.0
  {}

  lemma MostForMoney(money: real, price: real, q: real)
    requires price > 0.0 && q > 0.0 && Times(price, q) > money
    ensures var most := Trunc8(money / price);
            && (most > 0.0 && money > 0.0 <==> Times(price, QUANTUM) <= money)
            && (most > 0.0 ==> most <= q && Times(price, most) <= money < Times(price, most + QUANTUM))
  {
    hide Times, Trunc8, OnGrid8;
    var most := Trunc8(money / price);
    BudgetInShares(QUANTUM, money, price);
    BudgetInShares(most, money, price);
    BudgetInShares(most + QUANTUM, money, price);
    BudgetInShares(q, money, price);
    QuantumOnGrid();
    MostOnGrid(money / price, QUANTUM);
    RoundingLandsOnGrid(money / price);
    if most > 0.0 {
      QuantumIsLeast(most);
    }
    QuantumCosts(price);
  }

  // ---------------------------------------------------------------- what the strategy is shown

  /** The strategy is shown the bars of this session and the last bars of the series so far, with
      their clocks, the close of the session before, and the account's cash as its worth. */
  ghost predicate Shows(c: Config, ticks: seq<Tick>, first: nat, i: nat, cash: real, v: View)
    requires first <= i < |ticks|
  {
    var seen := if i + 1 <= c.historyBars then i + 1 else c.historyBars;
    && |v.session| == i + 1 - first
    && (forall j :: 0 <= j < |v.session| ==> v.session[j] == (ticks[first + j].bar, c.calendar.clock(ticks[first + j].time)))
    && |v.history| == seen
    && (forall j :: 0 <= j < |v.history| ==>
          v.history[j] == (ticks[i + 1 - seen + j].bar, c.calendar.clock(ticks[i + 1 - seen + j].time)))
    && v.accountValue == v.availableCash == cash
    && v.clock == c.calendar.clock(ticks[i].time)
    && LastClose(c, ticks, c.calendar.previous(ticks[i].session), first) == Some(v.previousClose)
  }

  lemma SeenBySession(c: Config, ticks: seq<Tick>, s: State, first: nat, i: nat)
    requires i < |ticks| && Opens(ticks, first, i) && SessionSince(c, ticks, s, first, i + 1)
    requires s.history == ticks[..i + 1] && Eligible(c, ticks, first) && Tradable(c, ticks[i]) && s.capital == s.cash
    ensures s.previousClose.Some? && Shows(c, ticks, first, i, s.cash, ViewOf(c, s, ticks[i]))
  {
    hide LastClose;
    SameRange(c, ticks, first, i);
    assert s.session == ticks[first..i + 1];
  }

  /** What one traded bar does. */
  lemma TradedBar(c: Config, ticks: seq<Tick>, i: nat)
    requires ConfigOk(c) && i < |ticks| && After(c, ticks, i + 1).Ok? && Traded(c, ticks, i)
    ensures After(c, ticks, i).Ok?
    ensures var s := After(c, ticks, i).value;
            && !s.stopped && TradeBar(c, SeeBar(c, s, ticks[i]), i, ticks[i]) == After(c, ticks, i + 1)
  {
    hide TradeBar, SeeBar, Traded, Known, RecordClose;
    RunKnows(c, ticks, i);
    BarTradedWhen(c, ticks, After(c, ticks, i).value, i);
  }

  /** The strategy is asked on every traded bar that ends flat outside early closes, and on no
      other; it is shown the bars so far and no more; and an order then waits exactly when it
      answered. */
  lemma AskedExactlyWhenFlat(c: Config, ticks: seq<Tick>, i: nat, first: nat)
    requires ConfigOk(c) && i < |ticks| && After(c, ticks, i + 1).Ok? && Opens(ticks, first, i)
    ensures var s := After(c, ticks, i + 1).value;
            && (s.pending != [] <==>
                  && Traded(c, ticks, i) && s.position.quantity == 0.0 && !c.calendar.earlyClose(ticks[i].session)
                  && SignalBefore(c, ticks, i + 1).Some?)
            && (Traded(c, ticks, i) && s.position.quantity == 0.0 ==>
                  && s.previousClose.Some?
                  && SignalBefore(c, ticks, i + 1) == c.strategy(ViewOf(c, s, ticks[i]))
                  && Shows(c, ticks, first, i, s.cash, ViewOf(c, s, ticks[i])))
  {
    hide TradeBar, SeeBar, Traded, RecordClose, After, Shows, Holds, TradeOk, EntryOk, Balanced, LastClose, ClosesKnown, Ended,
      TradedOk, Eligible, ViewOf, Signalled, Solvent, CurveOk, Opens, SessionSince;
    var s := After(c, ticks, i + 1).value;
    RunKeepsRunning(c, ticks, i + 1);
    RunKnows(c, ticks, i + 1);
    PositionsLeaveWhenDue(c, ticks, i + 1);
    TradedFirst(c, ticks, first, i);
    if s.pending != [] {
      WaitingIsAnswered(c, ticks, i + 1);
    }
    if Traded(c, ticks, i) {
      KnownSession(c, ticks, s, first, i);
      if s.position.quantity == 0.0 {
        SeenBySession(c, ticks, s, first, i);
      }
      TradedBar(c, ticks, i);
      NothingWaitsAtFirst(c, ticks, i);
      AnswerWaits(c, SeeBar(c, After(c, ticks, i).value, ticks[i]), i, ticks[i]);
    } else {
      UntradedWaitsNot(c, ticks, i);
    }
  }

  lemma TradedFirst(c: Config, ticks: seq<Tick>, first: nat, i: nat)
    requires i < |ticks| && Opens(ticks, first, i)
    ensures Traded(c, ticks, i) ==> Eligible(c, ticks, first) && Tradable(c, ticks[i]) && !Ended(c, ticks, i) && !AfterEnd(c, ticks[i])
  {
    hide Eligible, Ended;
    TradedByFirst(c, ticks, first, i);
  }

  lemma KnownSession(c: Config, ticks: seq<Tick>, s: State, first: nat, i: nat)
    requires i < |ticks| && Known(c, ticks, s, i + 1) && Opens(ticks, first, i) && Traded(c, ticks, i)
    ensures !s.stopped && s.history == ticks[..i + 1] && SessionSince(c, ticks, s, first, i + 1)
  {
    hide TradedOk, ClosesKnown, Eligible, LastClose, Ended, SessionSince;
    TradedFirst(c, ticks, first, i);
    EndedGrows(c, ticks, i);
    var other: nat :| Opens(ticks, other, i) && SessionSince(c, ticks, s, other, i + 1);
    SessionFromOneBar(ticks, first, other, i);
  }

  lemma AnswerWaits(c: Config, s: State, i: nat, t: Tick)
    requires TradeBar(c, s, i, t).Ok?
    requires s.pending != [] ==> i > 0
    ensures var s' := TradeBar(c, s, i, t).value;
            (s'.position.quantity <= 0.0 && s'.previousClose.Some? && !c.calendar.earlyClose(t.session)
             && c.strategy(ViewOf(c, s', t)).Some?) ==> s'.pending != []
    ensures var s' := TradeBar(c, s, i, t).value;
            s'.pending != [] ==> !c.calendar.earlyClose(t.session)
  {
    hide Times, FillOrders, CheckExit, Terminal;
    var s1 := s.(traded := s.traded + [i], session := s.session + [t]);
    if i > 0 && s1.pending != [] {
      OrdersOnlyAdd(c, s1.(pending := []), i, t, s1.pending);
    }
    var s2 := ProcessPending(c, s1, i, t).value;
    ExitTouchesOnlyItsOwn(c, s2, i, t);
    var s3 := CheckExit(c, s2, i, t).value;
    MarkTouchesOnlyItsOwn(c, AskStrategy(c, s3, i, t).value, i, t);
  }

  lemma WaitingIsAnswered(c: Config, ticks: seq<Tick>, k: nat)
    requires k <= |ticks| && After(c, ticks, k).Ok? && After(c, ticks, k).value.pending != []
    requires Waiting(c, ticks, After(c, ticks, k).value, k)
    ensures After(c, ticks, k).value.position.quantity == 0.0 && SignalBefore(c, ticks, k).Some?
  {
    hide After, ViewOf;
  }

  lemma NothingWaitsAtFirst(c: Config, ticks: seq<Tick>, i: nat)
    requires ConfigOk(c) && i < |ticks| && After(c, ticks, i).Ok?
    ensures SeeBar(c, After(c, ticks, i).value, ticks[i]).pending != [] ==> i > 0
  {
    if i == 0 {
      assert After(c, ticks, 0).value == Start(c);
    }
  }

  lemma UntradedWaitsNot(c: Config, ticks: seq<Tick>, i: nat)
    requires ConfigOk(c) && i < |ticks| && After(c, ticks, i + 1).Ok? && !Traded(c, ticks, i)
    ensures After(c, ticks, i + 1).value.pending == []
  {
    hide TradeBar, Traded, Known, EntryOk, Balanced, Signalled, Solvent, CurveOk, Terminal;
    RunKnows(c, ticks, i);
    RunKeepsRunning(c, ticks, i);
    var s := After(c, ticks, i).value;
    BarTradedWhen(c, ticks, s, i);
  }

  // ---------------------------------------------------------------- entries over a run

  /** The order waiting fills at this bar's open. */
  ghost predicate Fillable(c: Config, order: Order, open: real, cash: real, stop: real) {
    && Allowed(c, order.quantity, BuyPrice(open), cash, stop, QUANTUM)
    && forall cap :: IsCap(c, order.quantity, BuyPrice(open), cash, stop, cap) ==>
         Times(BuyPrice(open), QUANTUM) + FeePaid(c, BuyPrice(open), cap) <= cash
  }

  /** An entry is the largest its order, the caps and the cash allow at its bar's open. */
  ghost predicate Largest(c: Config, ticks: seq<Tick>, e: Entry) {
    && e.index < |ticks|
    && var open := ticks[e.index].bar.open;
       forall cap :: IsCap(c, e.order.quantity, BuyPrice(open), e.cash, e.stop, cap) ==>
         IsEntry(c, open, e.cash, cap, SimulatedFill(e.price, e.quantity, e.slippage, e.fee))
  }

  /** A bar enters exactly when an order waited from the bar before it, of the same session, and
      fills; the entry is then the largest that could be made, and otherwise there is none. */
  lemma EntersExactlyWhen(c: Config, ticks: seq<Tick>, i: nat)
    requires ConfigOk(c) && i < |ticks| && After(c, ticks, i + 1).Ok?
    ensures After(c, ticks, i).Ok?
    ensures var s, s' := After(c, ticks, i).value, After(c, ticks, i + 1).value;
            var waited := i > 0 && s.pending != [] && ticks[i - 1].session == ticks[i].session;
            if waited && Fillable(c, s.pending[0], ticks[i].bar.open, s.cash, s.levels.stop) then
              && |s'.entries| == |s.entries| + 1 && s'.entries[..|s.entries|] == s.entries
              && Largest(c, ticks, s'.entries[|s.entries|]) && s'.entries[|s.entries|].index == i
            else s'.entries == s.entries
  {
    hide TradeBar, SeeBar, Traded, Known, RecordClose, EntryOk, Balanced, Signalled, Solvent, CurveOk, Fillable, Largest, Times, Waiting;
    var s, t := After(c, ticks, i).value, ticks[i];
    RunKnows(c, ticks, i);
    RunKeepsRunning(c, ticks, i);
    BarTradedWhen(c, ticks, s, i);
    SeenBar(c, s, t);
    WaitedIsTraded(c, ticks, i);
    if Traded(c, ticks, i) {
      TradedBar(c, ticks, i);
      var seen := SeeBar(c, s, t);
      var s1 := seen.(traded := seen.traded + [i], session := seen.session + [t]);
      BarEntersFirst(c, seen, i, t);
      if s1.pending != [] {
        assert s1.pending == [s.pending[0]];
        OneOrder(c, s1.(pending := []), i, t, s.pending[0]);
        OrderEnters(c, ticks, s1.(pending := []), i, s.pending[0]);
      }
    }
  }

  lemma BarEntersFirst(c: Config, s: State, i: nat, t: Tick)
    requires TradeBar(c, s, i, t).Ok?
    ensures var s1 := s.(traded := s.traded + [i], session := s.session + [t]);
            && ProcessPending(c, s1, i, t).Ok?
            && TradeBar(c, s, i, t).value.entries == ProcessPending(c, s1, i, t).value.entries
  {
    hide ProcessPending, CheckExit, AskStrategy, Mark;
    var s1 := s.(traded := s.traded + [i], session := s.session + [t]);
    AskingKeepsEntries(c, CheckExit(c, ProcessPending(c, s1, i, t).value, i, t).value, i, t);
    EntriesAreMadeFirst(c, s1, i, t);
  }

  lemma AskingKeepsEntries(c: Config, s: State, i: nat, t: Tick)
    ensures AskStrategy(c, s, i, t).Ok? ==> AskStrategy(c, s, i, t).value.entries == s.entries
  {
    hide ViewOf;
  }

  /** An order that waits reaches the next bar when that is of its session, which is then traded;
      and it is dropped when the session is over. */
  lemma WaitedIsTraded(c: Config, ticks: seq<Tick>, i: nat)
    requires ConfigOk(c) && i < |ticks| && After(c, ticks, i).Ok?
    ensures var s := After(c, ticks, i).value;
            var waited := i > 0 && s.pending != [] && ticks[i - 1].session == ticks[i].session;
            && (waited ==> Traded(c, ticks, i) && |s.pending| == 1 && s.position.quantity == 0.0
                           && SeeBar(c, s, ticks[i]).pending == s.pending)
            && (!s.stopped && !waited ==> SeeBar(c, s, ticks[i]).pending == [])
  {
    hide TradeBar, Traded, Known, EntryOk, Balanced, Solvent, CurveOk, Terminal, Signalled, After;
    RunKnows(c, ticks, i);
    RunKeepsRunning(c, ticks, i);
    BarTradedWhen(c, ticks, After(c, ticks, i).value, i);
  }

  lemma OrderEnters(c: Config, ticks: seq<Tick>, s: State, i: nat, order: Order)
    requires ConfigOk(c) && i < |ticks| && s.position.quantity == 0.0 && FillOrder(c, s, i, ticks[i], order).Ok?
    ensures var s' := FillOrder(c, s, i, ticks[i], order).value;
            if Fillable(c, order, ticks[i].bar.open, s.cash, s.levels.stop) then
              && |s'.entries| == |s.entries| + 1 && s'.entries[..|s.entries|] == s.entries
              && Largest(c, ticks, s'.entries[|s.entries|]) && s'.entries[|s.entries|].index == i
            else s'.entries == s.entries
  {
    hide CapEntryFill, Times, IsEntry, FeePaid, BuyPrice, IsCap, Allowed, FillOrder, Cost;
    var open := ticks[i].bar.open;
    FillWrites(c, s, i, ticks[i], order);
    EntryIsLargest(c, order, open, s.cash, s.cash, s.levels.stop);
    var r := CapEntryFill(c, order, open, s.cash, s.cash, s.levels.stop).value;
    if r.Some? {
      assert SimulatedFill(r.value.price, r.value.quantity, r.value.slippage, r.value.fee) == r.value;
    }
  }

  lemma {:induction false} EntriesAreLargest(c: Config, ticks: seq<Tick>, k: nat)
    requires ConfigOk(c) && k <= |ticks| && After(c, ticks, k).Ok?
    ensures forall e <- After(c, ticks, k).value.entries :: Largest(c, ticks, e)
  {
    hide Step, Largest, Fillable;
    if k > 0 {
      EntriesAreLargest(c, ticks, k - 1);
      EntersExactlyWhen(c, ticks, k - 1);
      var s, s' := After(c, ticks, k - 1).value, After(c, ticks, k).value;
      forall e | e in s'.entries ensures Largest(c, ticks, e) {
        assert e in s.entries || e == s'.entries[|s.entries|];
      }
    }
  }

  // ---------------------------------------------------------------- the curve

  /** Every point of the curve is the account as it stood after its bar, at that bar's close. */
  ghost predicate PointOk(c: Config, ticks: seq<Tick>, p: Point) {
    && p.index < |ticks| && After(c, ticks, p.index + 1).Ok?
    && var s := After(c, ticks, p.index + 1).value;
       p.cash == s.cash && p.equity == s.cash + Times(s.position.quantity, ticks[p.index].bar.close)
  }

  lemma {:induction false} CurveIsTheAccount(c: Config, ticks: seq<Tick>, k: nat)
    requires ConfigOk(c) && k <= |ticks| && After(c, ticks, k).Ok?
    ensures var s := After(c, ticks, k).value;
            && |s.curve| == |s.traded| && (forall j :: 0 <= j < |s.curve| ==> s.curve[j].index == s.traded[j])
            && forall p <- s.curve :: PointOk(c, ticks, p)
  {
    hide Step, PointOk, EntryOk, Balanced, Signalled, Solvent;
    RunKeepsRunning(c, ticks, k);
    if k > 0 {
      CurveIsTheAccount(c, ticks, k - 1);
      hide After, Running, Waiting;
      OnePointABar(c, ticks, k - 1);
      var s, s' := After(c, ticks, k - 1).value, After(c, ticks, k).value;
      forall p | p in s'.curve ensures PointOk(c, ticks, p) {
        assert p in s.curve || p == s'.curve[|s'.curve| - 1];
      }
    }
  }

  lemma OnePointABar(c: Config, ticks: seq<Tick>, i: nat)
    requires ConfigOk(c) && i < |ticks| && After(c, ticks, i + 1).Ok?
    ensures After(c, ticks, i).Ok?
    ensures var s, s' := After(c, ticks, i).value, After(c, ticks, i + 1).value;
            s'.curve == s.curve
            || (|s'.curve| == |s.curve| + 1 && s'.curve[..|s.curve|] == s.curve && PointOk(c, ticks, s'.curve[|s.curve|]))
  {
    hide TradeBar, SeeBar, RecordClose;
    var s, t := After(c, ticks, i).value, ticks[i];
    SeenBar(c, s, t);
    var seen := SeeBar(c, s, t);
    if !s.stopped && Tradable(c, t) && seen.eligible {
      BarMarks(c, seen, i, t);
    }
  }

  lemma BarMarks(c: Config, s: State, i: nat, t: Tick)
    requires TradeBar(c, s, i, t).Ok?
    ensures var s' := TradeBar(c, s, i, t).value;
            s'.curve == s.curve + [Point(i, s'.cash + Times(s'.position.quantity, t.bar.close), s'.cash)]
  {
    hide Times, FillOrders, CheckExit, ViewOf, Mark;
    var s1 := s.(traded := s.traded + [i], session := s.session + [t]);
    if i > 0 && s1.pending != [] {
      OrdersOnlyAdd(c, s1.(pending := []), i, t, s1.pending);
    }
    var s2 := ProcessPending(c, s1, i, t).value;
    ExitTouchesOnlyItsOwn(c, s2, i, t);
    MarkTouchesOnlyItsOwn(c, AskStrategy(c, CheckExit(c, s2, i, t).value, i, t).value, i, t);
  }

  // ---------------------------------------------------------------- when a run is refused

  /** The order cannot be priced or has no stop below its price. */
  ghost predicate BadOrder(c: Config, order: Order, open: real, stop: real) {
    || order.quantity <= 0.0 || Trunc8(order.quantity) <= 0.0 || Trunc8(open) <= 0.0
    || (c.stopRequired && !(0.0 < stop < BuyPrice(open)))
  }

  /** A position is due to leave at a quote that cannot be priced. */
  ghost predicate BadExit(c: Config, ticks: seq<Tick>, s: State, i: nat)
    requires i < |ticks|
  {
    s.position.quantity > 0.0 && exists e: Entry :: Holds(c, ticks, s, e, i) && BadlyDue(c, ticks, e, i)
  }

  ghost predicate BadlyDue(c: Config, ticks: seq<Tick>, e: Entry, i: nat)
    requires i < |ticks|
  {
    exists reason, quote ::
      && Due(c, ticks, e.index, i, reason, quote) && quote != 0.0 && Trunc8(quote) <= 0.0
      && (reason.Partial? ==> Trunc8(e.quantity * 0.5) > 0.0)
  }

  /** The strategy asks to sell, or for nothing. */
  ghost predicate BadSignal(c: Config, s: State, t: Tick) {
    && s.position.quantity <= 0.0 && s.pending == [] && s.previousClose.Some? && !c.calendar.earlyClose(t.session)
    && var g := c.strategy(ViewOf(c, s, t));
       g.Some? && (g.value.side.Sell? || g.value.quantity <= 0.0)
  }

  lemma SimulatedSell(c: Config, quantity: real, quote: real)
    requires OnGrid8(quantity) && quantity > 0.0
    ensures Simulate(c, Sell, quantity, quote).Refused? <==> Trunc8(quote) <= 0.0
  {
    hide Round8, Trunc8, Times, Round2;
    RoundingFixesGrid(quantity);
    PolicyDecides(Sell, quantity, quote, Standard);
  }

  lemma ExitRefusedExactlyWhen(c: Config, ticks: seq<Tick>, s: State, e: Entry, i: nat)
    requires i < |ticks| && s.position.quantity > 0.0 && Holds(c, ticks, s, e, i)
    ensures CheckExit(c, s, i, ticks[i]).Refused? <==> BadlyDue(c, ticks, e, i)
  {
    hide Times, Share, SellPart, Simulate, LevelsOf, Traded, Halved, ExitOf, Trunc8, OnGrid8, Due, NeverDue;
    LeftIsOnGrid(c, ticks, e, i);
    if s.levels.stop <= 0.0 {
      NeverBadlyDue(c, ticks, e, i);
    } else {
      ExitIsDue(c, ticks, s, e.index, i);
      var x := ExitOf(c, s, i, ticks[i].bar);
      if x.Exit? {
        PartialIsHalfHit(c, ticks, e.index, i, x.reason, x.quote);
        if x.quantity > 0.0 {
          SimulatedSell(c, x.quantity, x.quote);
        }
      }
    }
  }

  lemma NeverBadlyDue(c: Config, ticks: seq<Tick>, e: Entry, i: nat)
    requires i < |ticks| && LevelsOf(c, ticks, e.index).stop <= 0.0
    ensures !BadlyDue(c, ticks, e, i)
  {
    hide LevelsOf, Halved, Trunc8;
  }

  /** A bar is refused exactly when it is traded and the order brought to it is bad, or what is
      then held is due to leave at a bad quote, or the strategy's answer is bad. */
  lemma StepRefusedExactlyWhen(c: Config, ticks: seq<Tick>, i: nat)
    requires ConfigOk(c) && i < |ticks| && After(c, ticks, i).Ok?
    ensures var t := ticks[i];
            var seen := SeeBar(c, After(c, ticks, i).value, t);
            var s1 := seen.(traded := seen.traded + [i], session := seen.session + [t]);
            After(c, ticks, i + 1).Refused? <==>
              && Traded(c, ticks, i)
              && (|| (s1.pending != [] && BadOrder(c, s1.pending[0], t.bar.open, s1.levels.stop))
                  || (ProcessPending(c, s1, i, t).Ok?
                      && (|| BadExit(c, ticks, ProcessPending(c, s1, i, t).value, i)
                          || (CheckExit(c, ProcessPending(c, s1, i, t).value, i, t).Ok?
                              && BadSignal(c, CheckExit(c, ProcessPending(c, s1, i, t).value, i, t).value, t)))))
  {
    hide SeeBar, Traded, Known, RecordClose, EntryOk, Balanced, Signalled, Solvent, CurveOk, Waiting, ProcessPending, CheckExit,
      AskStrategy, BadOrder, BadExit, BadSignal, Mark, Holds, TradeOk, After, Brings;
    var s, t := After(c, ticks, i).value, ticks[i];
    RunKnows(c, ticks, i);
    RunKeepsRunning(c, ticks, i);
    PositionsLeaveWhenDue(c, ticks, i);
    BarTradedWhen(c, ticks, s, i);
    AfterOneMore(c, ticks, i);
    if Traded(c, ticks, i) {
      SeenBar(c, s, t);
      SeeingKeepsAccount(c, s, t);
      WaitingBrings(c, ticks, s, i);
      var seen := SeeBar(c, s, t);
      var s1 := seen.(traded := seen.traded + [i], session := seen.session + [t]);
      BalanceIgnoresRest(c, s, s1);
      SameSales(s, s1);
      BroughtAgain(c, ticks, seen, s1, i);
      HeldByAccount(c, ticks, s, s1, i);
      NothingWaitsAtFirst(c, ticks, i);
      OrderRefusedExactlyWhen(c, s1, i, t);
      if ProcessPending(c, s1, i, t).Ok? {
        PendingHolds(c, ticks, s1, i);
        var s2 := ProcessPending(c, s1, i, t).value;
        LeavingRefusedExactlyWhen(c, ticks, s2, i);
        if CheckExit(c, s2, i, t).Ok? {
          AnswerRefusedExactlyWhen(c, CheckExit(c, s2, i, t).value, i, t);
        }
      }
    }
  }

  lemma AfterOneMore(c: Config, ticks: seq<Tick>, i: nat)
    requires i < |ticks| && After(c, ticks, i).Ok?
    ensures After(c, ticks, i + 1) == Step(c, After(c, ticks, i).value, i, ticks[i])
  {
    hide Step;
  }

  lemma BroughtAgain(c: Config, ticks: seq<Tick>, s: State, s': State, i: nat)
    requires i < |ticks| && Brings(c, ticks, s, i)
    requires s'.pending == s.pending && s'.cash == s.cash && s'.levels == s.levels
    ensures Brings(c, ticks, s', i)
  {
    hide After, Signalled;
  }

  lemma OrderRefusedExactlyWhen(c: Config, s: State, i: nat, t: Tick)
    requires ConfigOk(c) && |s.pending| <= 1 && (s.pending != [] ==> i > 0)
    ensures ProcessPending(c, s, i, t).Refused? <==> s.pending != [] && BadOrder(c, s.pending[0], t.bar.open, s.levels.stop)
  {
    hide CapEntryFill, BadOrder, Times, Cost;
    if s.pending != [] {
      assert s.pending == [s.pending[0]];
      OneOrder(c, s.(pending := []), i, t, s.pending[0]);
      var equity := s.cash + Times(s.position.quantity, t.bar.open);
      OrderIsBad(c, s.pending[0], t.bar.open, s.cash, equity, s.levels.stop);
    }
  }

  lemma OrderIsBad(c: Config, order: Order, open: real, cash: real, equity: real, stop: real)
    requires ConfigOk(c)
    ensures CapEntryFill(c, order, open, cash, equity, stop).Refused? <==> BadOrder(c, order, open, stop)
  {
    hide CapEntryFill, Trunc8, BuyPrice;
    EntryRefusedExactlyWhen(c, order, open, cash, equity, stop);
  }

  lemma LeavingRefusedExactlyWhen(c: Config, ticks: seq<Tick>, s: State, i: nat)
    requires i < |ticks| && PositionHeld(c, ticks, s, i)
    ensures CheckExit(c, s, i, ticks[i]).Refused? <==> BadExit(c, ticks, s, i)
  {
    hide CheckExit, Holds, BadlyDue;
    if s.position.quantity > 0.0 {
      forall e: Entry | Holds(c, ticks, s, e, i) ensures CheckExit(c, s, i, ticks[i]).Refused? <==> BadlyDue(c, ticks, e, i) {
        ExitRefusedExactlyWhen(c, ticks, s, e, i);
      }
    } else {
      FlatExitsNothing(c, s, i, ticks[i]);
    }
  }

  lemma AnswerRefusedExactlyWhen(c: Config, s: State, i: nat, t: Tick)
    ensures AskStrategy(c, s, i, t).Refused? <==> BadSignal(c, s, t)
  {}

  /** A run whose bars all go through is refused exactly when something is still held and the
      last close cannot be priced. */
  lemma CloseOutRefusedExactlyWhen(c: Config, ticks: seq<Tick>)
    requires ConfigOk(c) && After(c, ticks, |ticks|).Ok?
    ensures Simulated(c, ticks).Refused? <==>
              && After(c, ticks, |ticks|).value.position.quantity > 0.0
              && exists last: nat :: LastTraded(c, ticks, last) && Trunc8(ticks[last].bar.close) <= 0.0
  {
    hide After, Simulate, SellPart, Holds, TradeOk, Traded, EntryOk, Balanced, Signalled, Solvent, ClosesKnown, Ended, Trunc8;
    var s := After(c, ticks, |ticks|).value;
    RunKnows(c, ticks, |ticks|);
    RunKeepsRunning(c, ticks, |ticks|);
    PositionsLeaveWhenDue(c, ticks, |ticks|);
    if s.position.quantity > 0.0 {
      var e: Entry :| Holds(c, ticks, s, e, |ticks|);
      HeldIsOnGrid(c, ticks, s, e, |ticks|);
      LastIsGreatest(c, ticks, s);
      var last := s.traded[|s.traded| - 1];
      assert last in s.traded && LastTraded(c, ticks, last);
      SimulatedSell(c, s.position.quantity, ticks[last].bar.close);
    }
  }

  ghost predicate LastTraded(c: Config, ticks: seq<Tick>, last: nat) {
    last < |ticks| && Traded(c, ticks, last) && forall j: nat :: Traded(c, ticks, j) ==> j <= last
  }
}
