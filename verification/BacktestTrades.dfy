/** When and at what price a backtest's positions are taken and left. */
module BacktestTrades {
  import opened Decimals
  import opened Outcomes
  import opened PaperPolicy
  import opened DataContract
  import opened Backtest
  import opened BacktestProofs
  import opened BacktestSessions

  // ---------------------------------------------------------------- when a position is due to leave

  /** What the strategy answered when bar `index - 1` had been traded. */
  ghost function SignalBefore(c: Config, ticks: seq<Tick>, index: nat): Option<Signal> {
    if 0 < index <= |ticks| && After(c, ticks, index).Ok? && After(c, ticks, index).value.previousClose.Some?
    then c.strategy(ViewOf(c, After(c, ticks, index).value, ticks[index - 1]))
    else None
  }

  /** The levels of the position entered on bar `index`. */
  ghost function LevelsOf(c: Config, ticks: seq<Tick>, index: nat): Levels {
    var g := SignalBefore(c, ticks, index);
    if g.Some? then AskedLevels(g.value) else Levels(0.0, 0.0, 0.0)
  }

  ghost predicate StopHit(lv: Levels, bar: Bar) { lv.stop > 0.0 && bar.low <= lv.stop }

  ghost predicate InPlay(lv: Levels, bar: Bar) { lv.stop > 0.0 && bar.low > lv.stop }

  ghost predicate TargetHit(lv: Levels, bar: Bar) { InPlay(lv, bar) && bar.high >= lv.takeProfit }

  ghost predicate HalfHit(lv: Levels, bar: Bar) { InPlay(lv, bar) && bar.high < lv.takeProfit && bar.high >= lv.half }

  /** One of the traded bars from `index` to `k - 1` reached the half target and nothing else. */
  ghost predicate Halved(c: Config, ticks: seq<Tick>, index: nat, k: nat)
    requires k <= |ticks|
  {
    exists j: nat :: index <= j < k && Traded(c, ticks, j) && HalfHit(LevelsOf(c, ticks, index), ticks[j].bar)
  }

  /** On bar i the position entered on bar `index` is due to leave for that reason, at that quote:
      at its stop, or the open if that is lower; else, until it is halved, at its target, or for
      half of it at its half target; else at the open once it is old enough. */
  ghost predicate Due(c: Config, ticks: seq<Tick>, index: nat, i: nat, reason: ExitReason, quote: real)
    requires i < |ticks|
  {
    var lv, bar, halved := LevelsOf(c, ticks, index), ticks[i].bar, Halved(c, ticks, index, i);
    match reason
    case StopLoss => StopHit(lv, bar) && quote == Min(bar.open, lv.stop)
    case TakeProfit => !halved && TargetHit(lv, bar) && quote == lv.takeProfit
    case Partial => !halved && HalfHit(lv, bar) && quote == lv.half
    case Aged =>
      && InPlay(lv, bar) && (halved || (bar.high < lv.takeProfit && bar.high < lv.half))
      && i - index >= c.maxHoldingBars && quote == bar.open
    case BacktestEnd => false
  }

  /** What is left of an entry's shares when k bars have been traded and it is still held. */
  ghost function Left(c: Config, ticks: seq<Tick>, e: Entry, k: nat): real
    requires k <= |ticks|
  {
    if Halved(c, ticks, e.index, k) && LevelsOf(c, ticks, e.index).half != 0.0
    then e.quantity - Trunc8(e.quantity * 0.5)
    else e.quantity
  }

  // ---------------------------------------------------------------- what a sale states

  /** A sale at a quote: ten basis points below it, at the fee of the policy or the flat one. */
  ghost function SalePrice(quote: real): real { Round8(Trunc8(quote) * 0.999) }

  ghost function FeePaid(c: Config, price: real, quantity: real): real {
    if c.commission.Some? then c.commission.value else Round8(Max(0.01, Times(price, quantity) * 0.0002))
  }

  /** A trade states its share of the entry's fee and slippage with its own, and its profit after
      both fees. */
  ghost predicate SoldAt(c: Config, e: Entry, t: Trade, quote: real) {
    && t.entryIdx == e.index && t.entryPrice == e.price && e.quantity > 0.0
    && t.exitPrice == SalePrice(quote)
    && t.commission == Share(e.fee, t.quantity, e.quantity) + FeePaid(c, t.exitPrice, t.quantity)
    && t.slippage == Share(e.slippage, t.quantity, e.quantity)
                     + Round2(Times(Abs(t.exitPrice - Trunc8(quote)), t.quantity))
    && t.pnl == Times(t.exitPrice - t.entryPrice, t.quantity) - t.commission
  }

  /** A trade closed on a traded bar on which its position was due to leave, at the quote it was
      due at, for half of it or for all that was left. */
  ghost predicate TradeOk(c: Config, ticks: seq<Tick>, e: Entry, t: Trade) {
    && t.exitIdx < |ticks| && e.index <= t.exitIdx && Traded(c, ticks, t.exitIdx)
    && exists quote ::
         && Due(c, ticks, e.index, t.exitIdx, t.reason, quote) && quote != 0.0
         && SoldAt(c, e, t, quote)
         && t.quantity == (if t.reason.Partial? then Trunc8(e.quantity * 0.5) else Left(c, ticks, e, t.exitIdx))
  }

  ghost predicate TradesOk(c: Config, ticks: seq<Tick>, s: State) {
    forall t <- s.trades :: exists e <- s.entries :: TradeOk(c, ticks, e, t)
  }

  // ---------------------------------------------------------------- what is held

  /** Nothing that would close the position was due on bar j. */
  ghost predicate Stays(c: Config, ticks: seq<Tick>, index: nat, j: nat)
    requires j < |ticks|
  {
    forall reason, quote :: Due(c, ticks, index, j, reason, quote) && !reason.Partial? ==> quote == 0.0
  }

  ghost predicate NeverDue(c: Config, ticks: seq<Tick>, index: nat, k: nat)
    requires k <= |ticks|
  {
    forall j: nat :: index <= j < k && Traded(c, ticks, j) ==> Stays(c, ticks, index, j)
  }

  /** The position is what is left of the entry e. */
  ghost predicate Holds(c: Config, ticks: seq<Tick>, s: State, e: Entry, k: nat)
    requires k <= |ticks|
  {
    var p := s.position;
    && e in s.entries && e.index == p.index <= k && e.price == p.price && e.quantity > 0.0 && OnGrid8(e.quantity)
    && s.levels == LevelsOf(c, ticks, e.index)
    && (p.halved <==> Halved(c, ticks, e.index, k))
    && p.quantity == Left(c, ticks, e, k)
    && p.fee == Share(e.fee, p.quantity, e.quantity) && p.slippage == Share(e.slippage, p.quantity, e.quantity)
    && NeverDue(c, ticks, e.index, k)
  }

  /** A held position is an entry's, and was never due to leave; a flat account is worth its cash. */
  ghost predicate PositionHeld(c: Config, ticks: seq<Tick>, s: State, k: nat)
    requires k <= |ticks|
  {
    && (s.position.quantity > 0.0 ==> exists e: Entry :: Holds(c, ticks, s, e, k))
    && (s.position.quantity <= 0.0 ==> s.capital == s.cash && !s.position.halved)
  }

  // ---------------------------------------------------------------- one bar

  lemma HalvedGrows(c: Config, ticks: seq<Tick>, index: nat, k: nat)
    requires k < |ticks| && index <= k
    ensures Halved(c, ticks, index, k + 1) <==>
              Halved(c, ticks, index, k) || (Traded(c, ticks, k) && HalfHit(LevelsOf(c, ticks, index), ticks[k].bar))
  {
    hide Traded, LevelsOf, HalfHit;
    if Halved(c, ticks, index, k) {
      var j: nat :| index <= j < k && Traded(c, ticks, j) && HalfHit(LevelsOf(c, ticks, index), ticks[j].bar);
    }
  }

  lemma NeverDueGrows(c: Config, ticks: seq<Tick>, index: nat, k: nat)
    requires k < |ticks| && NeverDue(c, ticks, index, k)
    requires Traded(c, ticks, k) ==> Stays(c, ticks, index, k)
    ensures NeverDue(c, ticks, index, k + 1)
  {
    hide Traded, Stays;
  }

  /** A bar that is not traded changes nothing that is held. */
  lemma UntradedHolds(c: Config, ticks: seq<Tick>, s: State, s': State, k: nat)
    requires k < |ticks| && PositionHeld(c, ticks, s, k) && !Traded(c, ticks, k)
    requires SameAccount(s, s') && s'.levels == s.levels && s'.capital == s.capital
    ensures PositionHeld(c, ticks, s', k + 1)
  {
    hide Traded, LevelsOf, Due, Share, Halved, NeverDue;
    if s.position.quantity > 0.0 {
      var e: Entry :| Holds(c, ticks, s, e, k);
      HalvedGrows(c, ticks, e.index, k);
      NeverDueGrows(c, ticks, e.index, k);
      assert Holds(c, ticks, s', e, k + 1);
    }
  }

  /** The exit found is the one that is due. */
  lemma ExitIsDue(c: Config, ticks: seq<Tick>, s: State, index: nat, i: nat)
    requires i < |ticks| && s.levels == LevelsOf(c, ticks, index) && s.levels.stop > 0.0
    requires s.position.index == index <= i && (s.position.halved <==> Halved(c, ticks, index, i))
    ensures var x := ExitOf(c, s, i, ticks[i].bar);
            && (forall reason, quote :: Due(c, ticks, index, i, reason, quote) <==>
                  x.Exit? && x.reason == reason && x.quote == quote)
            && (x.Exit? ==> x.quantity == if x.reason.Partial? then Trunc8(s.position.quantity * 0.5) else s.position.quantity)
            && (x.halved <==> s.position.halved || HalfHit(s.levels, ticks[i].bar))
  {
    hide LevelsOf, Halved, Trunc8, Traded;
  }

  lemma NoLevelsNeverDue(c: Config, ticks: seq<Tick>, index: nat, i: nat)
    requires i < |ticks| && LevelsOf(c, ticks, index).stop <= 0.0
    ensures Stays(c, ticks, index, i) && !HalfHit(LevelsOf(c, ticks, index), ticks[i].bar)
  {
    hide LevelsOf, Halved;
  }

  lemma ShareOfShare(amount: real, sold: real, held: real, all: real)
    requires held != 0.0 && all != 0.0
    ensures Share(Share(amount, held, all), sold, held) == Share(amount, sold, all)
    ensures Share(amount, held, all) - Share(amount, sold, all) == Share(amount, held - sold, all)
  {
    var each := amount / all;
    assert forall x: real :: Share(amount, x, all) == each * x by {
      forall x: real ensures Share(amount, x, all) == each * x {
        assert amount * x / all == each * x;
      }
    }
    assert each * held * sold / held == each * sold;
  }

  lemma LeftIsOnGrid(c: Config, ticks: seq<Tick>, e: Entry, k: nat)
    requires k <= |ticks| && OnGrid8(e.quantity) && e.quantity > 0.0
    ensures OnGrid8(Left(c, ticks, e, k)) && 0.0 < Left(c, ticks, e, k) <= e.quantity
    ensures OnGrid8(Trunc8(e.quantity * 0.5)) && Trunc8(e.quantity * 0.5) < e.quantity
  {
    hide Halved, LevelsOf, Trunc8;
    RoundingLandsOnGrid(e.quantity * 0.5);
    GridSum(e.quantity, Trunc8(e.quantity * 0.5));
  }

  lemma SimulatedSale(c: Config, quantity: real, quote: real)
    requires OnGrid8(quantity) && Simulate(c, Sell, quantity, quote).Ok?
    ensures var f := Simulate(c, Sell, quantity, quote).value;
            && f.price == SalePrice(quote) && f.fee == FeePaid(c, f.price, quantity)
            && f.slippage == Round2(Times(Abs(f.price - Trunc8(quote)), quantity))
  {
    hide Round8, Trunc8, Times, Round2;
    RoundingFixesGrid(quantity);
    PolicyDecides(Sell, quantity, quote, Standard);
  }

  /** What a sale of part or all of a held position states. */
  lemma SaleStates(c: Config, ticks: seq<Tick>, s: State, e: Entry, k: nat, i: nat, reason: ExitReason, quantity: real, quote: real)
    requires k <= |ticks| && Holds(c, ticks, s, e, k) && OnGrid8(quantity) && s.position.quantity > 0.0
    requires Simulate(c, Sell, quantity, quote).Ok?
    ensures var s' := SellPart(c, s, i, reason, quantity, Simulate(c, Sell, quantity, quote).value);
            && |s'.trades| == |s.trades| + 1 && s'.trades[..|s.trades|] == s.trades
            && var t := s'.trades[|s.trades|];
               SoldAt(c, e, t, quote) && t.quantity == quantity && t.reason == reason && t.exitIdx == i
  {
    hide Times, SellPart, Share, SalePrice, FeePaid, Simulate, LevelsOf, Halved, NeverDue, Left, Round2, Trunc8;
    SimulatedSale(c, quantity, quote);
    SaleWrites(c, s, i, reason, quantity, Simulate(c, Sell, quantity, quote).value);
    ShareOfShare(e.fee, quantity, s.position.quantity, e.quantity);
    ShareOfShare(e.slippage, quantity, s.position.quantity, e.quantity);
  }

  /** What is left after a sale. */
  lemma SaleLeaves(c: Config, s: State, i: nat, reason: ExitReason, quantity: real, fill: SimulatedFill, e: Entry)
    requires 0.0 < quantity <= s.position.quantity && e.quantity > 0.0
    requires s.position.fee == Share(e.fee, s.position.quantity, e.quantity)
    requires s.position.slippage == Share(e.slippage, s.position.quantity, e.quantity)
    ensures var s' := SellPart(c, s, i, reason, quantity, fill);
            && s'.entries == s.entries
            && (quantity == s.position.quantity ==> s'.position.quantity == 0.0 && !s'.position.halved)
            && (quantity < s.position.quantity ==>
                  && s'.position == s.position.(quantity := s.position.quantity - quantity,
                                                fee := Share(e.fee, s.position.quantity - quantity, e.quantity),
                                                slippage := Share(e.slippage, s.position.quantity - quantity, e.quantity))
                  && s'.levels == s.levels)
  {
    hide Times, Share;
    ShareIs(s.position.fee, quantity, s.position.quantity);
    ShareIs(s.position.slippage, quantity, s.position.quantity);
    ShareOfShare(e.fee, quantity, s.position.quantity, e.quantity);
    ShareOfShare(e.slippage, quantity, s.position.quantity, e.quantity);
  }

  lemma ShareIs(amount: real, sold: real, all: real)
    requires all != 0.0
    ensures Share(amount, sold, all) == Times(amount, sold) / all
  {}

  /** A bar on which nothing is sold leaves the position as it was, but for its being halved when
      the half target was worth nothing or half of it rounds to nothing. */
  lemma NothingSold(c: Config, ticks: seq<Tick>, s: State, e: Entry, i: nat)
    requires i < |ticks| && Holds(c, ticks, s, e, i) && s.position.quantity > 0.0 && Traded(c, ticks, i)
    requires s.levels.stop > 0.0
    requires var x := ExitOf(c, s, i, ticks[i].bar); x.NoExit? || x.quote == 0.0 || x.quantity <= 0.0
    ensures var x := ExitOf(c, s, i, ticks[i].bar);
            Holds(c, ticks, s.(position := s.position.(halved := x.halved)), e, i + 1)
  {
    hide Times, Share, LevelsOf, Traded, Halved, ExitOf, Trunc8, OnGrid8, Due, NeverDue, HalfHit;
    HalvedGrows(c, ticks, e.index, i);
    LeftIsOnGrid(c, ticks, e, i);
    ExitIsDue(c, ticks, s, e.index, i);
    var x := ExitOf(c, s, i, ticks[i].bar);
    NeverDueGrows(c, ticks, e.index, i);
    if HalfHit(s.levels, ticks[i].bar) && !s.position.halved {
      HalfIsDue(c, ticks, s.levels, e.index, i);
      assert x.Exit? && x.reason.Partial? && x.quote == s.levels.half;
    }
  }

  lemma HalfIsDue(c: Config, ticks: seq<Tick>, lv: Levels, index: nat, i: nat)
    requires i < |ticks| && lv == LevelsOf(c, ticks, index) && HalfHit(lv, ticks[i].bar) && !Halved(c, ticks, index, i)
    ensures Due(c, ticks, index, i, Partial, lv.half)
  {
    hide LevelsOf, Halved;
  }

  lemma PartialIsHalfHit(c: Config, ticks: seq<Tick>, index: nat, i: nat, reason: ExitReason, quote: real)
    requires i < |ticks| && Due(c, ticks, index, i, reason, quote)
    ensures reason.Partial? ==> HalfHit(LevelsOf(c, ticks, index), ticks[i].bar) && !Halved(c, ticks, index, i)
                                && quote == LevelsOf(c, ticks, index).half
    ensures !reason.Partial? && !Halved(c, ticks, index, i) ==> !HalfHit(LevelsOf(c, ticks, index), ticks[i].bar)
  {
    hide LevelsOf, Halved;
  }

  /** A bar on which something is sold: half of the position, which keeps the rest, or all of it. */
  lemma SomethingSold(c: Config, ticks: seq<Tick>, s: State, e: Entry, i: nat)
    requires i < |ticks| && Holds(c, ticks, s, e, i) && s.position.quantity > 0.0 && Traded(c, ticks, i)
    requires s.levels.stop > 0.0 && CheckExit(c, s, i, ticks[i]).Ok?
    requires var x := ExitOf(c, s, i, ticks[i].bar); x.Exit? && x.quote != 0.0 && x.quantity > 0.0
    ensures var s' := CheckExit(c, s, i, ticks[i]).value;
            && PositionHeld(c, ticks, s', i + 1)
            && s'.entries == s.entries
            && |s'.trades| == |s.trades| + 1 && s'.trades[..|s.trades|] == s.trades
            && TradeOk(c, ticks, e, s'.trades[|s.trades|])
  {
    hide Times, Share, SellPart, Simulate, LevelsOf, Traded, Halved, ExitOf, Trunc8, OnGrid8, SoldAt, Due, NeverDue, HalfHit;
    var t := ticks[i];
    var s' := CheckExit(c, s, i, t).value;
    HalvedGrows(c, ticks, e.index, i);
    LeftIsOnGrid(c, ticks, e, i);
    ExitIsDue(c, ticks, s, e.index, i);
    var x := ExitOf(c, s, i, t.bar);
    var s1 := s.(position := s.position.(halved := x.halved));
    PartialIsHalfHit(c, ticks, e.index, i, x.reason, x.quote);
    SaleOfHeld(c, ticks, s, s1, e, i, x.reason, x.quantity, x.quote);
    var s2 := SellPart(c, s1, i, x.reason, x.quantity, Simulate(c, Sell, x.quantity, x.quote).value);
    SaleLeaves(c, s1, i, x.reason, x.quantity, Simulate(c, Sell, x.quantity, x.quote).value, e);
    if x.reason.Partial? {
      assert s'.position == s2.position && s'.levels == s.levels && s'.entries == s.entries;
      StaysWhenHalved(c, ticks, e.index, i, x.quote);
      NeverDueGrows(c, ticks, e.index, i);
      assert Holds(c, ticks, s', e, i + 1);
    } else {
      NothingHeld(t.bar.close);
    }
  }

  lemma StaysWhenHalved(c: Config, ticks: seq<Tick>, index: nat, i: nat, quote: real)
    requires i < |ticks| && Due(c, ticks, index, i, Partial, quote)
    ensures Stays(c, ticks, index, i)
  {
    hide LevelsOf, Halved;
  }

  lemma SaleOfHeld(c: Config, ticks: seq<Tick>, s: State, s1: State, e: Entry, i: nat, reason: ExitReason, quantity: real, quote: real)
    requires i < |ticks| && Holds(c, ticks, s, e, i) && OnGrid8(quantity) && s.position.quantity > 0.0
    requires s1 == s.(position := s.position.(halved := s1.position.halved))
    requires Simulate(c, Sell, quantity, quote).Ok? && Traded(c, ticks, i)
    requires Due(c, ticks, e.index, i, reason, quote) && quote != 0.0
    requires quantity == if reason.Partial? then Trunc8(e.quantity * 0.5) else Left(c, ticks, e, i)
    ensures var s' := SellPart(c, s1, i, reason, quantity, Simulate(c, Sell, quantity, quote).value);
            && |s'.trades| == |s.trades| + 1 && s'.trades[..|s.trades|] == s.trades
            && TradeOk(c, ticks, e, s'.trades[|s.trades|])
  {
    hide Times, SellPart, Share, Simulate, LevelsOf, Traded, Halved, Trunc8, OnGrid8, SoldAt, Due, NeverDue, Left;
    SaleStates(c, ticks, s, e, i, i, reason, quantity, quote);
    HalvingIsNotStated(c, s, s1, i, reason, quantity, Simulate(c, Sell, quantity, quote).value);
  }

  lemma HalvingIsNotStated(c: Config, s: State, s1: State, i: nat, reason: ExitReason, quantity: real, fill: SimulatedFill)
    requires s.position.quantity != 0.0 && s1 == s.(position := s.position.(halved := s1.position.halved))
    ensures SellPart(c, s1, i, reason, quantity, fill).trades == SellPart(c, s, i, reason, quantity, fill).trades
  {
    hide Times;
  }

  /** What one exit check does to a held position. */
  lemma ExitHolds(c: Config, ticks: seq<Tick>, s: State, e: Entry, i: nat)
    requires i < |ticks| && Holds(c, ticks, s, e, i) && s.position.quantity > 0.0 && Traded(c, ticks, i)
    requires CheckExit(c, s, i, ticks[i]).Ok?
    ensures var s' := CheckExit(c, s, i, ticks[i]).value;
            && PositionHeld(c, ticks, s', i + 1)
            && s'.entries == s.entries
            && (s'.trades == s.trades
                || (|s'.trades| == |s.trades| + 1 && s'.trades[..|s.trades|] == s.trades
                    && TradeOk(c, ticks, e, s'.trades[|s.trades|])))
  {
    hide Times, Share, SellPart, Simulate, LevelsOf, Traded, Halved, ExitOf, Trunc8, OnGrid8, SoldAt, Due, NeverDue;
    var t := ticks[i];
    var s' := CheckExit(c, s, i, t).value;
    HalvedGrows(c, ticks, e.index, i);
    LeftIsOnGrid(c, ticks, e, i);
    if s.levels.stop <= 0.0 {
      NoLevelsNeverDue(c, ticks, e.index, i);
      NeverDueGrows(c, ticks, e.index, i);
      assert Holds(c, ticks, s', e, i + 1);
    } else {
      ExitIsDue(c, ticks, s, e.index, i);
      var x := ExitOf(c, s, i, t.bar);
      if x.NoExit? || x.quote == 0.0 || x.quantity <= 0.0 {
        NothingSold(c, ticks, s, e, i);
      } else {
        SomethingSold(c, ticks, s, e, i);
      }
    }
  }

  // ---------------------------------------------------------------- every bar

  lemma FreshEntryHolds(c: Config, ticks: seq<Tick>, s: State, e: Entry, i: nat)
    requires i < |ticks| && e in s.entries && e.index == i && e.quantity > 0.0 && OnGrid8(e.quantity)
    requires s.position == Position(e.quantity, e.price, i, e.fee, e.slippage, false)
    requires s.levels == LevelsOf(c, ticks, i)
    ensures Holds(c, ticks, s, e, i)
  {
    hide LevelsOf, Traded, Due, Share, OnGrid8;
    WholeShare(e.fee, e.quantity);
    WholeShare(e.slippage, e.quantity);
  }

  lemma BroughtLevels(c: Config, ticks: seq<Tick>, s: State, i: nat)
    requires i < |ticks| && Brings(c, ticks, s, i) && s.pending != []
    ensures s.levels == LevelsOf(c, ticks, i)
  {
    hide After, ViewOf;
  }

  /** What the order brought to a bar leaves held. */
  lemma PendingHolds(c: Config, ticks: seq<Tick>, s: State, i: nat)
    requires ConfigOk(c) && i < |ticks| && LedgerOk(c, s) && ProcessPending(c, s, i, ticks[i]).Ok?
    requires Brings(c, ticks, s, i) && PositionHeld(c, ticks, s, i)
    ensures var s' := ProcessPending(c, s, i, ticks[i]).value;
            && PositionHeld(c, ticks, s', i)
            && s.entries <= s'.entries && s'.trades == s.trades
  {
    hide Balanced, Times, CapEntryFill, FillOrder, Signalled, After, WithinCaps, FillPrice, Trunc8, Solvent, Holds, Brings, OnGrid8;
    if s.pending == [] || i == 0 {
      assert i == 0 ==> s.pending == [] by { BringsLater(c, ticks, s, i); }
    } else {
      var order, clear, t := s.pending[0], s.(pending := []), ticks[i];
      assert s.pending == [order];
      OneOrder(c, clear, i, t, order);
      FillWrites(c, clear, i, t, order);
      BroughtLevels(c, ticks, s, i);
      var fill := CapEntryFill(c, order, t.bar.open, s.cash, s.cash, s.levels.stop).value;
      if fill.Some? {
        EntryRespectsCaps(c, order, t.bar.open, s.cash, s.cash, s.levels.stop);
        var f := fill.value;
        assert f.quantity > 0.0 by { CappedIsPositive(c, order, f, s.cash, s.cash, s.levels.stop); }
        var e := Entry(order, i, f.price, f.quantity, f.fee, f.slippage, s.cash, s.cash, s.levels.stop);
        FreshEntryHolds(c, ticks, ProcessPending(c, s, i, t).value, e, i);
      }
    }
  }

  lemma CappedIsPositive(c: Config, order: Order, f: SimulatedFill, cash: real, equity: real, stop: real)
    requires WithinCaps(c, order, f.price, f.quantity, f.fee, cash, equity, stop)
    ensures f.quantity > 0.0
  {}

  lemma BringsLater(c: Config, ticks: seq<Tick>, s: State, i: nat)
    requires i < |ticks| && Brings(c, ticks, s, i)
    ensures i == 0 ==> s.pending == []
  {
    hide After, Signalled;
  }

  lemma TradesStayOk(c: Config, ticks: seq<Tick>, s: State, s': State)
    requires TradesOk(c, ticks, s) && s'.trades == s.trades && s.entries <= s'.entries
    ensures TradesOk(c, ticks, s')
  {
    hide TradeOk;
    forall t | t in s'.trades ensures exists e <- s'.entries :: TradeOk(c, ticks, e, t) {
      var e :| e in s.entries && TradeOk(c, ticks, e, t);
      assert e in s'.entries;
    }
  }

  lemma OneMoreTradeOk(c: Config, ticks: seq<Tick>, s: State, s': State, e: Entry)
    requires TradesOk(c, ticks, s) && s'.entries == s.entries && e in s.entries
    requires |s'.trades| == |s.trades| + 1 && s'.trades[..|s.trades|] == s.trades
    requires TradeOk(c, ticks, e, s'.trades[|s.trades|])
    ensures TradesOk(c, ticks, s')
  {
    hide TradeOk;
    forall t | t in s'.trades ensures exists e <- s'.entries :: TradeOk(c, ticks, e, t) {
      if t != s'.trades[|s.trades|] {
        assert t in s.trades;
      }
    }
  }

  lemma HeldByAccount(c: Config, ticks: seq<Tick>, s: State, s': State, k: nat)
    requires k <= |ticks| && PositionHeld(c, ticks, s, k)
    requires s'.position == s.position && s'.entries == s.entries && s'.cash == s.cash && s'.capital == s.capital
    requires s.position.quantity > 0.0 ==> s'.levels == s.levels
    ensures PositionHeld(c, ticks, s', k)
  {
    hide LevelsOf, Halved, Left, Share, NeverDue, OnGrid8;
    if s.position.quantity > 0.0 {
      var e: Entry :| Holds(c, ticks, s, e, k);
      assert Holds(c, ticks, s', e, k);
    }
  }

  lemma ExitLeavesHeld(c: Config, ticks: seq<Tick>, s: State, i: nat)
    requires i < |ticks| && PositionHeld(c, ticks, s, i) && Traded(c, ticks, i) && TradesOk(c, ticks, s)
    requires CheckExit(c, s, i, ticks[i]).Ok?
    ensures var s' := CheckExit(c, s, i, ticks[i]).value;
            && PositionHeld(c, ticks, s', i + 1) && TradesOk(c, ticks, s') && s'.pending == s.pending
  {
    hide LevelsOf, Traded, Due, Share, Halved, NeverDue, Left, TradeOk, CheckExit;
    ExitTouchesOnlyItsOwn(c, s, i, ticks[i]);
    var s' := CheckExit(c, s, i, ticks[i]).value;
    if s.position.quantity > 0.0 {
      var e: Entry :| Holds(c, ticks, s, e, i);
      ExitHolds(c, ticks, s, e, i);
      if s'.trades == s.trades {
        TradesStayOk(c, ticks, s, s');
      } else {
        OneMoreTradeOk(c, ticks, s, s', e);
      }
    } else {
      FlatExitsNothing(c, s, i, ticks[i]);
    }
  }

  lemma FlatExitsNothing(c: Config, s: State, i: nat, t: Tick)
    requires s.position.quantity <= 0.0
    ensures CheckExit(c, s, i, t) == Ok(s)
  {}

  lemma BarHolds(c: Config, ticks: seq<Tick>, s: State, i: nat)
    requires ConfigOk(c) && i < |ticks| && TradeBar(c, s, i, ticks[i]).Ok? && Traded(c, ticks, i)
    requires LedgerOk(c, s) && Brings(c, ticks, s, i) && PositionHeld(c, ticks, s, i) && TradesOk(c, ticks, s)
    ensures var s' := TradeBar(c, s, i, ticks[i]).value;
            PositionHeld(c, ticks, s', i + 1) && TradesOk(c, ticks, s')
  {
    hide Balanced, Times, ProcessPending, CheckExit, PositionOk, After, Solvent, Traded, TradeOk, ViewOf, Holds, Signalled, RecordClose;
    var t := ticks[i];
    var s1 := s.(traded := s.traded + [i], session := s.session + [t]);
    BalanceIgnoresRest(c, s, s1);
    SameSales(s, s1);
    HeldByAccount(c, ticks, s, s1, i);
    PendingHolds(c, ticks, s1, i);
    var s2 := ProcessPending(c, s1, i, t).value;
    TradesStayOk(c, ticks, s, s2);
    ExitLeavesHeld(c, ticks, s2, i);
    var s3 := CheckExit(c, s2, i, t).value;
    var s4 := AskStrategy(c, s3, i, t).value;
    HeldByAccount(c, ticks, s3, s4, i + 1);
    MarkTouchesOnlyItsOwn(c, s4, i, t);
    var s5 := Mark(c, s4, i, t);
    HeldByAccount(c, ticks, s4, s5, i + 1);
    TradesStayOk(c, ticks, s3, s5);
  }

  lemma WaitingBrings(c: Config, ticks: seq<Tick>, s: State, i: nat)
    requires i < |ticks| && After(c, ticks, i) == Ok(s) && Waiting(c, ticks, s, i) && !s.stopped
    requires i > 0 ==> s.current == Some(ticks[i - 1].session)
    ensures Brings(c, ticks, SeeBar(c, s, ticks[i]), i)
  {
    hide Signalled, After;
  }

  lemma SeeingKeepsAccount(c: Config, s: State, t: Tick)
    ensures var s' := SeeBar(c, s, t); s'.levels == s.levels && s'.capital == s.capital
  {}

  lemma StepHolds(c: Config, ticks: seq<Tick>, s: State, i: nat)
    requires ConfigOk(c) && i < |ticks| && After(c, ticks, i) == Ok(s) && Step(c, s, i, ticks[i]).Ok?
    requires Running(c, ticks, s, i) && Known(c, ticks, s, i) && PositionHeld(c, ticks, s, i) && TradesOk(c, ticks, s)
    ensures var s' := Step(c, s, i, ticks[i]).value; PositionHeld(c, ticks, s', i + 1) && TradesOk(c, ticks, s')
  {
    hide Balanced, Times, TradeBar, PositionOk, EntryOk, SeeBar, RecordClose, After, Solvent, Signalled, Traded, Brings,
      PositionHeld, TradeOk, Known, BeforeStart, AfterEnd, Waiting, TradesOk;
    var t := ticks[i];
    var s1, s' := SeeBar(c, s, t), Step(c, s, i, t).value;
    BarTradedWhen(c, ticks, s, i);
    if s.stopped {
      UntradedHolds(c, ticks, s, s', i);
      SameTradesOk(c, ticks, s, s');
    } else {
      SeenBar(c, s, t);
      SeeingKeepsAccount(c, s, t);
      if !Tradable(c, t) || !s1.eligible {
        UntradedHolds(c, ticks, s, s', i);
        SameTradesOk(c, ticks, s, s');
      } else {
        BalanceIgnoresRest(c, s, s1);
        SameSales(s, s1);
        WaitingBrings(c, ticks, s, i);
        HeldByAccount(c, ticks, s, s1, i);
        SameTradesOk(c, ticks, s, s1);
        BarHolds(c, ticks, s1, i);
      }
    }
  }

  lemma SameTradesOk(c: Config, ticks: seq<Tick>, s: State, s': State)
    requires TradesOk(c, ticks, s) && s'.trades == s.trades && s'.entries == s.entries
    ensures TradesOk(c, ticks, s')
  {
    hide TradeOk;
  }

  /** The bar that comes is traded exactly when the run is not over, it is in the date range and
      its session is eligible. */
  lemma BarTradedWhen(c: Config, ticks: seq<Tick>, s: State, i: nat)
    requires i < |ticks| && Known(c, ticks, s, i)
    ensures Traded(c, ticks, i) <==> !s.stopped && Tradable(c, ticks[i]) && SeeBar(c, s, ticks[i]).eligible
  {
    hide Eligible, LastClose, SeeBar, ClosesKnown, Tradable, Ended, TradedOk, Traded;
    if s.stopped {
      EndedTradesNothing(c, ticks, i);
    } else {
      SeenBarOpens(c, ticks, s, i);
      var first: nat :| Opens(ticks, first, i) && SessionSeen(c, ticks, SeeBar(c, s, ticks[i]), first, i);
      TradedByFirst(c, ticks, first, i);
    }
  }

  /** Every position held after k bars is what is left of one entry, at the levels its signal
      asked for, and on no traded bar since was it due to leave; every trade closed a position on
      a bar it was due to leave on, for that reason and at that quote. */
  lemma {:induction false} PositionsLeaveWhenDue(c: Config, ticks: seq<Tick>, k: nat)
    requires ConfigOk(c) && k <= |ticks| && After(c, ticks, k).Ok?
    ensures var s := After(c, ticks, k).value; PositionHeld(c, ticks, s, k) && TradesOk(c, ticks, s)
  {
    hide Step, Running, Known, Holds, TradeOk;
    if k > 0 {
      var s := After(c, ticks, k - 1).value;
      PositionsLeaveWhenDue(c, ticks, k - 1);
      RunKeepsRunning(c, ticks, k - 1);
      RunKnows(c, ticks, k - 1);
      hide After, PositionHeld, TradesOk;
      StepHolds(c, ticks, s, k - 1);
    }
  }

  /** The trade that closes a run out: all that was left, at the close of the last bar traded. */
  ghost predicate ClosedOut(c: Config, ticks: seq<Tick>, e: Entry, t: Trade) {
    && t.reason.BacktestEnd? && t.exitIdx < |ticks| && Traded(c, ticks, t.exitIdx)
    && (forall j: nat :: Traded(c, ticks, j) ==> j <= t.exitIdx)
    && SoldAt(c, e, t, ticks[t.exitIdx].bar.close) && t.quantity == Left(c, ticks, e, |ticks|)
    && NeverDue(c, ticks, e.index, |ticks|)
  }

  /** Every trade of a finished run closed a position on a bar it was due to leave on, for the
      reason and at the quote that were due; or it closes the run out, at the last close, a
      position that was never due to leave. */
  lemma EveryTradeIsDue(c: Config, ticks: seq<Tick>)
    requires ConfigOk(c) && Simulated(c, ticks).Ok?
    ensures var s := Simulated(c, ticks).value;
            forall t <- s.trades :: exists e <- s.entries :: TradeOk(c, ticks, e, t) || ClosedOut(c, ticks, e, t)
  {
    hide After, SellPart, Simulate, TradeOk, ClosedOut, Traded, Running, Holds;
    var s, s' := After(c, ticks, |ticks|).value, Simulated(c, ticks).value;
    PositionsLeaveWhenDue(c, ticks, |ticks|);
    RunKnows(c, ticks, |ticks|);
    if s' == s {
      assert forall t <- s.trades :: exists e <- s.entries :: TradeOk(c, ticks, e, t);
    } else {
      var e: Entry :| Holds(c, ticks, s, e, |ticks|);
      LastSaleClosesOut(c, ticks, s, e);
      var last := s'.trades[|s.trades|];
      forall t | t in s'.trades ensures exists e <- s'.entries :: TradeOk(c, ticks, e, t) || ClosedOut(c, ticks, e, t) {
        if t in s.trades {
          var x :| x in s.entries && TradeOk(c, ticks, x, t);
          assert x in s'.entries;
        } else {
          assert t == last && e in s'.entries;
        }
      }
    }
  }

  lemma LastSaleClosesOut(c: Config, ticks: seq<Tick>, s: State, e: Entry)
    requires CloseOut(c, ticks, s).Ok? && s.position.quantity > 0.0 && Holds(c, ticks, s, e, |ticks|)
    requires Known(c, ticks, s, |ticks|) && s.traded != [] && s.traded[|s.traded| - 1] < |ticks|
    ensures var s' := CloseOut(c, ticks, s).value;
            && s'.entries == s.entries && e in s.entries
            && |s'.trades| == |s.trades| + 1 && s'.trades[..|s.trades|] == s.trades
            && ClosedOut(c, ticks, e, s'.trades[|s.trades|])
  {
    hide SellPart, Simulate, Traded, SoldAt, Left, Halved, NeverDue, LevelsOf, Share, OnGrid8, ClosesKnown, Ended;
    var last := s.traded[|s.traded| - 1];
    HeldIsOnGrid(c, ticks, s, e, |ticks|);
    SaleStates(c, ticks, s, e, |ticks|, last, BacktestEnd, s.position.quantity, ticks[last].bar.close);
    SaleKeepsCurve(c, s, last, BacktestEnd, s.position.quantity, Simulate(c, Sell, s.position.quantity, ticks[last].bar.close).value);
    LastIsGreatest(c, ticks, s);
  }

  lemma HeldIsOnGrid(c: Config, ticks: seq<Tick>, s: State, e: Entry, k: nat)
    requires k <= |ticks| && Holds(c, ticks, s, e, k)
    ensures OnGrid8(s.position.quantity)
  {
    hide Halved, LevelsOf, NeverDue, Share, Left, OnGrid8;
    LeftIsOnGrid(c, ticks, e, k);
  }

  lemma LastIsGreatest(c: Config, ticks: seq<Tick>, s: State)
    requires TradedOk(c, ticks, s, |ticks|) && s.traded != []
    ensures var last := s.traded[|s.traded| - 1];
            Traded(c, ticks, last) && forall j: nat :: Traded(c, ticks, j) ==> j <= last
  {
    hide Tradable, Ended, Opens, Eligible;
    var last := s.traded[|s.traded| - 1];
    assert last in s.traded;
    forall j: nat | Traded(c, ticks, j) ensures j <= last {
      assert j in s.traded;
    }
  }
}
