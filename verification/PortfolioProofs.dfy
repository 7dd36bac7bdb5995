/** What one rebalance conserves, keeps and reaches. */
module PortfolioProofs {
  import opened Decimals
  import opened Outcomes
  import opened PaperPolicy
  import opened Portfolio

  // ---------------------------------------------------------------- values

  lemma ValueAdds(a: nat, b: nat, p: real)
    ensures Value(a + b, p) == Value(a, p) + Value(b, p) && Value(0, p) == 0.0
  {
    assert Shares(a + b) == Shares(a) + Shares(b);
    assert (Shares(a) + Shares(b)) * p == Shares(a) * p + Shares(b) * p;
  }

  lemma ValueOfDifference(u: nat, p: real, q: real)
    ensures Value(u, p - q) == Value(u, p) - Value(u, q)
  {}

  lemma ValueGrows(a: nat, b: nat, p: real)
    requires a <= b && p >= 0.0
    ensures 0.0 <= Value(a, p) <= Value(b, p)
  {}

  lemma QuantumValue(p: real)
    ensures Value(1, p) == p / 10000.0
  {}

  /** Rounding down to whole quanta spends at most the amount, and less than one quantum's
      worth is left of it. */
  lemma UnitsFit(amount: real, price: real)
    requires amount >= 0.0 && price > 0.0
    ensures var k := UnitsIn(amount, price);
            k >= 0 && Value(k, price) <= amount < Value(k + 1, price)
  {
    hide Times, Value;
    var x := amount / price * 10000.0;
    var k := UnitsIn(amount, price);
    var c := price / 10000.0;
    UnitsTimesQuantum(amount, price);
    ValueIsQuanta(k, price);
    ValueIsQuanta(k + 1, price);
    Stretch(k as real, x, c);
    Stretch(x, k as real + 1.0, c);
    assert x < k as real + 1.0;
    assert Times(k as real + 1.0, c) == Value(k + 1, price);
  }

  lemma UnitsTimesQuantum(amount: real, price: real)
    requires price > 0.0
    ensures Times(amount / price * 10000.0, price / 10000.0) == amount
    ensures amount >= 0.0 ==> amount / price * 10000.0 >= 0.0
  {
    var q := amount / price;
    assert q * price == amount;
    assert q * 10000.0 * (price / 10000.0) == q * price;
  }

  lemma ValueIsQuanta(k: nat, price: real)
    ensures Times(k as real, price / 10000.0) == Value(k, price)
  {}

  lemma Stretch(a: real, b: real, c: real)
    requires c > 0.0
    ensures a <= b ==> Times(a, c) <= Times(b, c)
    ensures a < b ==> Times(a, c) < Times(b, c)
  {}

  lemma NoUnitsInNothing(amount: real, price: real)
    requires amount < 0.0 && price > 0.0
    ensures UnitsIn(amount, price) <= 0
  {
    Stretch(amount, 0.0, 1.0 / price);
    assert amount / price == amount * (1.0 / price);
  }

  // ---------------------------------------------------------------- fills

  /** The policy fills a whole number of share quanta exactly. */
  lemma PolicyFillsExactly(side: Side, units: nat, quote: real)
    requires Evaluate(side, Shares(units), quote, Standard).Fill?
    ensures Evaluate(side, Shares(units), quote, Standard).quantity == Shares(units)
  {
    assert Shares(units) == Units8(units * 10000);
    RoundingFixesGrid(Shares(units));
  }

  /** Two basis points of the value but at least a cent, or the flat rate of it in cents. */
  function FeeOf(costs: Costs, units: nat, price: real): real {
    if costs.Rate? then Round2(Times(Value(units, price), costs.rate))
    else Round8(Max(0.01, Times(price, Shares(units)) * 0.0002))
  }

  function PolicyPrice(costs: Costs, side: Side, open: real): real {
    if costs.Rate? then open else FillPrice(side, Trunc8(open))
  }

  /** A buy at this opening quote is filled at it or above. */
  predicate CoversOpen(costs: Costs, open: real) { open <= PolicyPrice(costs, Buy, open) }

  lemma BuyUnits(n: int)
    requires n >= 1
    ensures FillPrice(Buy, Units8(n)) == Units8(HalfEven(n as real * 1.001))
    ensures n <= 500 ==> HalfEven(n as real * 1.001) == n
    ensures n >= 501 ==> HalfEven(n as real * 1.001) >= n + 1
  {
    assert Units8(n) * (1.0 + ADVERSE_RATE) * 100000000.0 == n as real * 1.001;
    if n <= 500 {
      assert (n as real * 1.001).Floor == n;
    }
  }

  /** The policy prices a buy from the truncated quote. What truncation takes is made good
      exactly from 501 price quanta on; below that, only for quotes it leaves alone. */
  lemma BuysCoverTheOpenExactlyWhen(open: real)
    requires Trunc8(open) > 0.0
    ensures CoversOpen(Policy, open) <==> OnGrid8(open) || open >= 0.00000501
  {
    RoundingLandsOnGrid(open);
    var n :| Trunc8(open) == Units8(n);
    UnitsAtLeast(Trunc8(open), n);
    assert open >= 0.00000501 <==> n >= 501 by {
      assert Units8(n) <= open < Units8(n) + QUANTUM;
    }
    BuyUnits(n);
    hide FillPrice, Trunc8;
    if OnGrid8(open) {
      RoundingFixesGrid(open);
    }
  }

  lemma FillIsPriced(costs: Costs, side: Side, units: nat, quote: real)
    requires quote > 0.0 && Execute(costs, side, units, quote).Some?
    ensures var (price, fee) := Execute(costs, side, units, quote).value;
            && price > 0.0
            && (costs.Policy? ==> fee >= MIN_FEE)
            && price == PolicyPrice(costs, side, quote) && fee == FeeOf(costs, units, price)
            && (if side.Sell? then price <= quote else quote <= price <==> CoversOpen(costs, quote))
  {
    hide Round8, Trunc8, Round2, Times, FillPrice;
    if costs.Policy? {
      FillContract(side, Shares(units), quote, Standard);
      PolicyFillsExactly(side, units, quote);
    }
  }

  /** The policy refuses to fill a ticker only for an open below the price quantum. */
  lemma FillsExactlyWhen(costs: Costs, side: Side, units: nat, quote: real)
    requires units > 0
    ensures Execute(costs, side, units, quote).Some? <==> costs.Rate? || quote >= QUANTUM
  {
    hide Round8, FillPrice, Fee, Round2;
    assert Shares(units) == Units8(units * 10000);
    RoundingFixesGrid(Shares(units));
    assert quote >= QUANTUM <==> Trunc8(quote) > 0.0 by { QuantumOrMore(quote); }
  }

  lemma QuantumOrMore(x: real)
    ensures x >= QUANTUM <==> Trunc8(x) > 0.0
  {
    assert x * 100000000.0 >= 1.0 <==> x >= QUANTUM;
  }

  lemma {:induction false} SellPassFills(m: Market, b: Book, n: nat)
    requires Fits(m, b) && n <= |m.opens|
    requires m.costs.Rate? || forall open <- m.opens :: open <= 0.0 || open >= QUANTUM
    ensures SellPass(m, b, n).Some?
  {
    hide Value, UnitsIn, Execute, Equity, Target, Sold;
    if n > 0 {
      SellPassFills(m, b, n - 1);
      assert m.opens[n - 1] in m.opens;
      SellStepFills(m, Target(m, Equity(b, m), n - 1), SellPass(m, b, n - 1).value, n - 1);
    }
  }

  lemma SellStepFills(m: Market, target: real, b: Book, i: nat)
    requires Fits(m, b) && i < |m.opens| && (m.costs.Rate? || m.opens[i] <= 0.0 || m.opens[i] >= QUANTUM)
    ensures SellStep(m, target, b, i).Some?
  {
    hide Value, UnitsIn, Execute, Sold;
    var wanted := if m.opens[i] > 0.0 then UnitsIn(-(target - Value(b.holdings[i], m.opens[i])), m.opens[i]) else 0;
    var units := if wanted < b.holdings[i] then wanted else b.holdings[i];
    if units > 0 {
      FillsExactlyWhen(m.costs, Sell, units, m.opens[i]);
    }
  }

  lemma BuyStepFills(m: Market, target: real, b: Book, i: nat)
    requires Fits(m, b) && i < |m.opens| && (m.costs.Rate? || m.opens[i] <= 0.0 || m.opens[i] >= QUANTUM)
    ensures BuyStep(m, target, b, i).Some?
  {
    hide Value, UnitsIn, Execute, Bought;
    forall units: nat | units > 0 && m.opens[i] > 0.0 ensures Execute(m.costs, Buy, units, m.opens[i]).Some? {
      FillsExactlyWhen(m.costs, Buy, units, m.opens[i]);
    }
  }

  lemma {:induction false} BuyPassFills(m: Market, equityAtOpen: real, b: Book, n: nat)
    requires Fits(m, b) && n <= |m.opens|
    requires m.costs.Rate? || forall open <- m.opens :: open <= 0.0 || open >= QUANTUM
    ensures BuyPass(m, equityAtOpen, b, n).Some?
  {
    hide Value, UnitsIn, Execute, Target, Bought, BuyStep;
    if n > 0 {
      BuyPassFills(m, equityAtOpen, b, n - 1);
      assert m.opens[n - 1] in m.opens;
      BuyStepFills(m, Target(m, equityAtOpen, n - 1), BuyPass(m, equityAtOpen, b, n - 1).value, n - 1);
    }
  }

  /** A rebalance is never refused at a flat rate, or when no open is a positive fraction of the
      price quantum. */
  lemma OrdinaryRebalancesGoThrough(m: Market, b: Book)
    requires Fits(m, b) && (m.costs.Rate? || forall open <- m.opens :: open <= 0.0 || open >= QUANTUM)
    ensures Rebalanced(m, b).Some?
  {
    hide SellPass, BuyPass, Equity;
    SellPassFills(m, b, |m.opens|);
    BuyPassFills(m, Equity(b, m), SellPass(m, b, |m.opens|).value, |m.opens|);
  }

  // ---------------------------------------------------------------- conservation

  /** What a trade gives away against the opening price. */
  function Slip(t: Trade): real {
    if t.side.Buy? then Value(t.units, t.price - t.quote) else Value(t.units, t.quote - t.price)
  }

  function TotalCost(trades: seq<Trade>): real {
    if trades == [] then 0.0
    else TotalCost(trades[..|trades| - 1]) + trades[|trades| - 1].fee + Slip(trades[|trades| - 1])
  }

  /** How far the fill is from the quote, for all its shares, before any rounding. */
  function Distance(t: Trade): real { Times(Abs(t.price - t.quote), Shares(t.units)) }

  /** What the result reports for its trades: the sums of their fee and slippage columns. */
  function Reported(trades: seq<Trade>): real {
    if trades == [] then 0.0
    else Reported(trades[..|trades| - 1]) + trades[|trades| - 1].fee + trades[|trades| - 1].slippage
  }

  /** What rounding leaves out of the slippage columns. */
  function Residues(trades: seq<Trade>): real {
    if trades == [] then 0.0
    else
      var t := trades[|trades| - 1];
      Residues(trades[..|trades| - 1]) + (Distance(t) - t.slippage)
  }

  /** What a purchase below its quote gains against it. */
  function Shortfall(t: Trade): real { if t.side.Buy? && t.price < t.quote then Distance(t) else 0.0 }

  function Shortfalls(trades: seq<Trade>): real {
    if trades == [] then 0.0 else Shortfalls(trades[..|trades| - 1]) + Shortfall(trades[|trades| - 1])
  }

  lemma {:induction false} HeldChange(h: seq<nat>, opens: seq<real>, i: nat, units: nat)
    requires |h| == |opens| && i < |h|
    ensures Held(h[i := units], opens) == Held(h, opens) - Value(h[i], opens[i]) + Value(units, opens[i])
  {
    hide Times;
    var n := |h| - 1;
    if i == n {
      assert h[i := units][..n] == h[..n];
    } else {
      HeldChange(h[..n], opens[..n], i, units);
      assert h[i := units][..n] == h[..n][i := units];
    }
  }

  lemma SaleCosts(m: Market, b: Book, i: nat, units: nat, fill: (real, real))
    requires Fits(m, b) && i < |m.opens| && units <= b.holdings[i]
    ensures var b' := Sold(b, i, units, m.opens[i], fill);
            Equity(b', m) + TotalCost(b'.trades) == Equity(b, m) + TotalCost(b.trades)
  {
    hide Value;
    var b' := Sold(b, i, units, m.opens[i], fill);
    HeldChange(b.holdings, m.opens, i, b.holdings[i] - units);
    ValueAdds(b.holdings[i] - units, units, m.opens[i]);
    ValueOfDifference(units, m.opens[i], fill.0);
    assert b'.trades[..|b.trades|] == b.trades;
  }

  lemma PurchaseCosts(m: Market, b: Book, i: nat, units: nat, fill: (real, real))
    requires Fits(m, b) && i < |m.opens|
    ensures var b' := Bought(b, i, units, m.opens[i], fill);
            Equity(b', m) + TotalCost(b'.trades) == Equity(b, m) + TotalCost(b.trades)
  {
    hide Value;
    var b' := Bought(b, i, units, m.opens[i], fill);
    HeldChange(b.holdings, m.opens, i, b.holdings[i] + units);
    ValueAdds(b.holdings[i], units, m.opens[i]);
    ValueOfDifference(units, fill.0, m.opens[i]);
    assert b'.trades[..|b.trades|] == b.trades;
  }

  // ---------------------------------------------------------------- what one ticker's step does

  ghost predicate SoldDown(target: real, open: real, before: nat, after: nat) {
    if open <= 0.0 || Value(before, open) <= target then after == before
    else
      && after <= before
      && target <= Value(after, open)
      && (after == 0 || Value(after, open) < target + open / 10000.0)
  }

  ghost predicate BoughtUp(target: real, open: real, before: nat, after: nat) {
    if open <= 0.0 || target <= Value(before, open) then after == before
    else before <= after && Value(after, open) <= target
  }

  /** Every trade is at the policy price of the day's opening quote, a sale at no better a price
      and a purchase at no better a price exactly when the policy covers that quote; and its row
      is rounded as the columns are. */
  ghost predicate TradesSound(m: Market, trades: seq<Trade>) {
    forall t <- trades ::
      && t.ticker < |m.opens| && t.quote == m.opens[t.ticker] > 0.0 && t.units > 0 && t.price > 0.0
      && t.price == PolicyPrice(m.costs, t.side, t.quote)
      && (if t.side.Sell? then t.price <= t.quote else t.quote <= t.price <==> CoversOpen(m.costs, t.quote))
      && t.fee == FeeOf(m.costs, t.units, t.price)
      && t.slippage == Round8(Distance(t)) && t.cost == Round8(Distance(t) + t.fee)
  }

  function Net(trades: seq<Trade>, i: nat): int {
    if trades == [] then 0
    else
      var t := trades[|trades| - 1];
      Net(trades[..|trades| - 1], i) + (if t.ticker != i then 0 else if t.side.Buy? then t.units else -(t.units as int))
  }

  /** What any number of steps keep, against the book the rebalance started from. */
  ghost predicate Kept(m: Market, start: Book, b: Book) {
    && Fits(m, start) && Fits(m, b)
    && Equity(b, m) + TotalCost(b.trades) == Equity(start, m) + TotalCost(start.trades)
    && TradesSound(m, b.trades)
    && forall i :: 0 <= i < |m.opens| ==> b.holdings[i] as int == start.holdings[i] + Net(b.trades, i)
  }

  lemma SellStepSells(m: Market, target: real, b: Book, i: nat)
    requires Fits(m, b) && i < |m.opens| && SellStep(m, target, b, i).Some?
    ensures var b' := SellStep(m, target, b, i).value;
            && Fits(m, b')
            && SoldDown(target, m.opens[i], b.holdings[i], b'.holdings[i])
            && (forall j :: 0 <= j < |m.opens| && j != i ==> b'.holdings[j] == b.holdings[j])
  {
    hide Value, Execute, UnitsIn;
    var open := m.opens[i];
    if open > 0.0 && Value(b.holdings[i], open) > target {
      var over := Value(b.holdings[i], open) - target;
      var wanted := UnitsIn(over, open);
      UnitsFit(over, open);
      QuantumValue(open);
      ValueAdds(wanted, 1, open);
      if wanted <= b.holdings[i] {
        ValueAdds(b.holdings[i] - wanted, wanted, open);
      } else {
        ValueGrows(b.holdings[i], wanted, open);
        ValueAdds(0, 0, open);
      }
    }
  }

  lemma SellStepKeeps(m: Market, target: real, start: Book, b: Book, i: nat)
    requires Kept(m, start, b) && i < |m.opens| && SellStep(m, target, b, i).Some?
    ensures Kept(m, start, SellStep(m, target, b, i).value)
  {
    hide Value, Execute, UnitsIn, Equity, TotalCost, CoversOpen, Round8, PolicyPrice;
    var b' := SellStep(m, target, b, i).value;
    if b' != b {
      var units := b.holdings[i] - b'.holdings[i];
      var fill := Execute(m.costs, Sell, units, m.opens[i]).value;
      FillIsPriced(m.costs, Sell, units, m.opens[i]);
      assert b' == Sold(b, i, units, m.opens[i], fill);
      SaleCosts(m, b, i, units, fill);
      assert b'.trades[..|b.trades|] == b.trades;
    }
  }

  /** The second attempt of a buy is for fewer units than the first. */
  lemma SecondAttemptIsSmaller(cash: real, fee: real, price: real, units: nat)
    requires price > 0.0 && cash - fee > 0.0 && Value(units, price) + fee > cash
    ensures 0 <= UnitsIn(cash - fee, price) < units
  {
    hide Value, UnitsIn;
    UnitsFit(cash - fee, price);
    var fewer := UnitsIn(cash - fee, price);
    if fewer >= units {
      ValueGrows(units, fewer, price);
    }
  }

  /** A buy step either leaves the book alone or buys at most what brings the ticker to its
      target, for no more than the cash there is. */
  lemma BuyStepBuys(m: Market, target: real, b: Book, i: nat)
    requires Fits(m, b) && i < |m.opens| && BuyStep(m, target, b, i).Some?
    ensures var b' := BuyStep(m, target, b, i).value;
            && Fits(m, b')
            && BoughtUp(target, m.opens[i], b.holdings[i], b'.holdings[i])
            && (forall j :: 0 <= j < |m.opens| && j != i ==> b'.holdings[j] == b.holdings[j])
            && (b' != b ==>
                  && b'.cash >= 0.0 && b.cash >= 0.0 && m.opens[i] > 0.0
                  && exists units: nat, fill :: units > 0 && Execute(m.costs, Buy, units, m.opens[i]) == Some(fill)
                                                && b' == Bought(b, i, units, m.opens[i], fill))
  {
    hide Value, Execute, UnitsIn;
    var open := m.opens[i];
    var b' := BuyStep(m, target, b, i).value;
    if b' != b {
      var delta := target - Value(b.holdings[i], open);
      var desired := UnitsIn(delta, open);
      UnitsFit(delta, open);
      if b.cash < 0.0 {
        NoUnitsInNothing(b.cash, open);
      }
      var units := if UnitsIn(b.cash, open) < desired then UnitsIn(b.cash, open) else desired;
      var fill := Execute(m.costs, Buy, units, open).value;
      FillIsPriced(m.costs, Buy, units, open);
      var bought: nat := b'.holdings[i] - b.holdings[i];
      if Value(units, fill.0) + fill.1 > b.cash {
        SecondAttemptIsSmaller(b.cash, fill.1, fill.0, units);
      }
      assert bought <= desired;
      ValueGrows(bought, desired, open);
      ValueAdds(b.holdings[i], bought, open);
    }
  }

  lemma BuyStepKeeps(m: Market, target: real, start: Book, b: Book, i: nat)
    requires Kept(m, start, b) && i < |m.opens| && BuyStep(m, target, b, i).Some?
    ensures Kept(m, start, BuyStep(m, target, b, i).value)
  {
    hide Value, Execute, UnitsIn, Equity, TotalCost, CoversOpen, BuyStep, Round8, PolicyPrice;
    var b' := BuyStep(m, target, b, i).value;
    BuyStepBuys(m, target, b, i);
    if b' != b {
      var units: nat, fill :| units > 0 && Execute(m.costs, Buy, units, m.opens[i]) == Some(fill)
                              && b' == Bought(b, i, units, m.opens[i], fill);
      FillIsPriced(m.costs, Buy, units, m.opens[i]);
      PurchaseCosts(m, b, i, units, fill);
      assert b'.trades[..|b.trades|] == b.trades;
    }
  }

  // ---------------------------------------------------------------- the passes

  lemma {:induction false} SellPassSells(m: Market, start: Book, n: nat)
    requires Kept(m, start, start) && n <= |m.opens| && SellPass(m, start, n).Some?
    ensures var b := SellPass(m, start, n).value;
            && Kept(m, start, b)
            && (forall i :: 0 <= i < n ==>
                  SoldDown(Target(m, Equity(start, m), i), m.opens[i], start.holdings[i], b.holdings[i]))
            && (forall i :: n <= i < |m.opens| ==> b.holdings[i] == start.holdings[i])
  {
    hide SoldDown, SellStep, Target, Equity, TotalCost, TradesSound;
    if n > 0 {
      SellPassSells(m, start, n - 1);
      var b := SellPass(m, start, n - 1).value;
      var target := Target(m, Equity(start, m), n - 1);
      SellStepSells(m, target, b, n - 1);
      SellStepKeeps(m, target, start, b, n - 1);
    }
  }

  lemma {:induction false} BuyPassBuys(m: Market, start: Book, equityAtOpen: real, sold: Book, n: nat)
    requires Kept(m, start, sold) && n <= |m.opens| && BuyPass(m, equityAtOpen, sold, n).Some?
    ensures var b := BuyPass(m, equityAtOpen, sold, n).value;
            && Kept(m, start, b)
            && (forall i :: 0 <= i < n ==>
                  BoughtUp(Target(m, equityAtOpen, i), m.opens[i], sold.holdings[i], b.holdings[i]))
            && (forall i :: n <= i < |m.opens| ==> b.holdings[i] == sold.holdings[i])
            && (if sold.cash >= 0.0 then b.cash >= 0.0 else b == sold)
  {
    hide BoughtUp, BuyStep, Target, Equity, TotalCost, TradesSound, Execute, Bought;
    if n > 0 {
      BuyPassBuys(m, start, equityAtOpen, sold, n - 1);
      var b := BuyPass(m, equityAtOpen, sold, n - 1).value;
      var target := Target(m, equityAtOpen, n - 1);
      BuyStepBuys(m, target, b, n - 1);
      BuyStepKeeps(m, target, start, b, n - 1);
    }
  }

  // ---------------------------------------------------------------- main results

  lemma StartKept(m: Market, cash: real, holdings: seq<nat>)
    requires |m.opens| == |m.weights| == |holdings|
    ensures Kept(m, Book(cash, holdings, []), Book(cash, holdings, []))
  {}

  /** Equity at the opening prices falls by exactly the fees and what the fills give away, and
      the returned cash differs from that by at most half a cent. Holdings move by exactly the
      shares traded. */
  lemma RebalanceConserves(m: Market, cash: real, holdings: seq<nat>)
    requires |m.opens| == |m.weights| == |holdings|
    requires Rebalanced(m, Book(cash, holdings, [])).Some?
    ensures var start := Book(cash, holdings, []);
            var b := Rebalanced(m, start).value;
            && Equity(b, m) == Equity(start, m) - TotalCost(b.trades)
            && -0.005 <= Round2(b.cash) - b.cash <= 0.005
            && forall i :: 0 <= i < |holdings| ==> b.holdings[i] as int == holdings[i] + Net(b.trades, i)
  {
    hide SellPass, BuyPass, Equity, TradesSound;
    var start := Book(cash, holdings, []);
    StartKept(m, cash, holdings);
    SellPassSells(m, start, |m.opens|);
    BuyPassBuys(m, start, Equity(start, m), SellPass(m, start, |m.opens|).value, |m.opens|);
  }

  /** Every purchase was at or above its opening quote. */
  ghost predicate BuysCovered(m: Market, trades: seq<Trade>) {
    forall t <- trades :: t.side.Buy? ==> t.ticker < |m.opens| && CoversOpen(m.costs, m.opens[t.ticker])
  }

  lemma SlipIsDistance(t: Trade)
    requires t.units > 0 && (t.side.Sell? ==> t.price <= t.quote)
    ensures Slip(t) == Distance(t) - 2.0 * Shortfall(t)
    ensures 0.0 <= Shortfall(t) <= Distance(t)
    ensures Shortfall(t) == 0.0 <==> (t.side.Buy? ==> t.quote <= t.price)
  {
    var shares := Shares(t.units);
    var d := t.price - t.quote;
    assert shares > 0.0;
    assert Slip(t) == if t.side.Buy? then shares * d else shares * -d;
    assert Distance(t) == Abs(d) * shares;
    assert d < 0.0 ==> shares * -d > 0.0;
    assert d > 0.0 ==> shares * d > 0.0;
    assert shares * -d == -(shares * d);
  }

  lemma {:induction false} RowsAddUp(m: Market, trades: seq<Trade>)
    requires TradesSound(m, trades)
    ensures TotalCost(trades) == Reported(trades) + Residues(trades) - 2.0 * Shortfalls(trades)
    ensures -HALF_QUANTUM * |trades| as real <= Residues(trades) <= HALF_QUANTUM * |trades| as real
    ensures Shortfalls(trades) >= 0.0 && (Shortfalls(trades) == 0.0 <==> BuysCovered(m, trades))
  {
    hide Slip, Distance, Shortfall, Round8, CoversOpen, PolicyPrice;
    if trades != [] {
      var n := |trades| - 1;
      var t := trades[n];
      assert t in trades;
      RowsAddUp(m, trades[..n]);
      SlipIsDistance(t);
      assert forall u <- trades[..n] :: u in trades;
      assert forall u <- trades :: u in trades[..n] || u == t;
    }
  }

  lemma ZeroRoundsToZero()
    ensures Round8(0.0) == 0.0
  {}

  /** A row's slippage column states exactly what its fill gave away if and only if that was no
      gain and needs no more than eight decimals. */
  lemma RowIsExactExactlyWhen(t: Trade)
    requires t.units > 0 && t.slippage == Round8(Distance(t)) && (t.side.Sell? ==> t.price <= t.quote)
    ensures Slip(t) == t.slippage <==> (t.side.Buy? ==> t.quote <= t.price) && OnGrid8(Distance(t))
  {
    hide Round8, Distance, Slip, Shortfall, OnGrid8;
    SlipIsDistance(t);
    RoundingLandsOnGrid(Distance(t));
    Round8Monotone(0.0, Distance(t));
    ZeroRoundsToZero();
    if OnGrid8(Distance(t)) {
      RoundingFixesGrid(Distance(t));
    }
    assert Shortfall(t) != 0.0 ==> Shortfall(t) == Distance(t) by { ShortfallIsDistance(t); }
  }

  lemma ShortfallIsDistance(t: Trade)
    ensures Shortfall(t) == 0.0 || Shortfall(t) == Distance(t)
  {
    hide Distance;
  }

  /** A row's cost column is its slippage and fee columns together if and only if its slippage
      is no tie between two quanta or its fee is an even number of them. */
  lemma CostColumnAgreesExactlyWhen(t: Trade, fee: int)
    requires t.slippage == Round8(Distance(t)) && t.cost == Round8(Distance(t) + t.fee) && t.fee == Units8(fee)
    ensures var x := Distance(t) * 100000000.0;
            t.cost == t.slippage + t.fee <==> (x - x.Floor as real != 0.5 || fee % 2 == 0)
  {
    hide Distance;
    var x := Distance(t) * 100000000.0;
    HalfEvenRaise(fee, x);
    assert (Distance(t) + t.fee) * 100000000.0 == fee as real + x;
  }

  function Tenths(k: int): real { k as real / 10.0 }

  /** A tenth of a unit of money, any number of times. */
  ghost predicate InTenths(x: real) {
    exists k: int :: x == Tenths(k)
  }

  /** From an open in tenths the policy moves the price by whole ten-thousandths, so that any
      number of share quanta lands on the grid; at a flat rate it does not move it at all. */
  lemma TenthsAreExact(m: Market, t: Trade)
    requires t.price == PolicyPrice(m.costs, t.side, t.quote)
    requires m.costs.Rate? || (InTenths(t.quote) && t.quote > 0.0)
    ensures OnGrid8(Distance(t))
  {
    if m.costs.Rate? {
      assert Distance(t) == Units8(0);
    } else {
      var k :| t.quote == Tenths(k);
      TenthsArePriced(t.side, k);
      assert Abs(t.price - t.quote) == k as real / 10000.0;
      TenthsTimesShares(k, t.units);
    }
  }

  lemma TenthsArePriced(side: Side, k: int)
    requires k > 0
    ensures var open := Tenths(k);
            FillPrice(side, Trunc8(open)) == (if side.Buy? then open + k as real / 10000.0 else open - k as real / 10000.0)
  {
    hide Round8, Trunc8;
    var open := Tenths(k);
    assert open == Units8(10000000 * k);
    RoundingFixesGrid(open);
    var moved := if side.Buy? then 10010000 * k else 9990000 * k;
    assert Units8(moved) == open * (if side.Buy? then 1.0 + ADVERSE_RATE else 1.0 - ADVERSE_RATE);
    RoundingFixesGrid(Units8(moved));
  }

  lemma TenthsTimesShares(k: int, units: nat)
    ensures OnGrid8(Times(k as real / 10000.0, Shares(units)))
  {
    assert Times(k as real / 10000.0, Shares(units)) == (k as real * units as real) / 100000000.0;
    assert k as real * units as real == (k * units) as real;
    assert Times(k as real / 10000.0, Shares(units)) == Units8(k * units);
  }

  lemma {:induction false} RowsOnGrid(m: Market, trades: seq<Trade>)
    requires TradesSound(m, trades)
    requires forall t <- trades :: OnGrid8(Distance(t))
    ensures Residues(trades) == 0.0
  {
    hide Distance, Round8, OnGrid8, CoversOpen, PolicyPrice;
    if trades != [] {
      var n := |trades| - 1;
      assert trades[n] in trades;
      RoundingFixesGrid(Distance(trades[n]));
      assert forall u <- trades[..n] :: u in trades;
      RowsOnGrid(m, trades[..n]);
    }
  }

  /** The loss of equity is exactly what the rows report, plus what rounding leaves out of their
      slippage columns, less twice what purchases below their open gained. The rounding is at
      most half a quantum a trade; there are no such gains if and only if the policy price of
      every purchase covers its open, as it does for opens on the grid or from 0.00000501 on.
      Nothing is left out at a flat rate, or when every open is in tenths. */
  lemma LossIsWhatTradesReport(m: Market, cash: real, holdings: seq<nat>)
    requires |m.opens| == |m.weights| == |holdings|
    requires Rebalanced(m, Book(cash, holdings, [])).Some?
    ensures var start := Book(cash, holdings, []);
            var b := Rebalanced(m, start).value;
            var loss := Equity(start, m) - Equity(b, m);
            && loss == Reported(b.trades) + Residues(b.trades) - 2.0 * Shortfalls(b.trades)
            && -HALF_QUANTUM * |b.trades| as real <= Residues(b.trades) <= HALF_QUANTUM * |b.trades| as real
            && Shortfalls(b.trades) >= 0.0 && (Shortfalls(b.trades) == 0.0 <==> BuysCovered(m, b.trades))
            && ((forall open <- m.opens :: open <= 0.0 || open >= 0.00000501 || OnGrid8(open)) ==>
                  BuysCovered(m, b.trades))
            && (m.costs.Rate? || (forall open <- m.opens :: open <= 0.0 || InTenths(open)) ==>
                  loss == Reported(b.trades))
  {
    hide SellPass, BuyPass, Equity, CoversOpen, OnGrid8, InTenths, Distance, PolicyPrice, Round8;
    var start := Book(cash, holdings, []);
    StartKept(m, cash, holdings);
    SellPassSells(m, start, |m.opens|);
    BuyPassBuys(m, start, Equity(start, m), SellPass(m, start, |m.opens|).value, |m.opens|);
    var trades := Rebalanced(m, start).value.trades;
    RowsAddUp(m, trades);
    if forall open <- m.opens :: open <= 0.0 || open >= 0.00000501 || OnGrid8(open) {
      OrdinaryBuysAreCovered(m, trades);
    }
    if m.costs.Rate? || forall open <- m.opens :: open <= 0.0 || InTenths(open) {
      TenthsLeaveNothingOut(m, trades);
    }
  }

  lemma OrdinaryBuysAreCovered(m: Market, trades: seq<Trade>)
    requires TradesSound(m, trades)
    requires forall t <- trades :: t.quote >= 0.00000501 || OnGrid8(t.quote)
    ensures BuysCovered(m, trades)
  {
    hide CoversOpen, OnGrid8, Distance, PolicyPrice, Round8;
    forall t | t in trades && t.side.Buy? ensures CoversOpen(m.costs, m.opens[t.ticker]) {
      OrdinaryOpensAreCovered(m.costs, t.quote);
    }
  }

  lemma TenthsLeaveNothingOut(m: Market, trades: seq<Trade>)
    requires TradesSound(m, trades)
    requires m.costs.Rate? || forall t <- trades :: InTenths(t.quote)
    ensures Residues(trades) == 0.0 && BuysCovered(m, trades)
  {
    hide CoversOpen, InTenths, Distance, PolicyPrice, Round8;
    forall t | t in trades ensures OnGrid8(Distance(t)) && CoversOpen(m.costs, t.quote) {
      TenthsAreExact(m, t);
      if m.costs.Rate? {
        RateCovers(m.costs, t.quote);
      } else {
        TenthsAreOnGrid(t.quote);
        OrdinaryOpensAreCovered(m.costs, t.quote);
      }
    }
    RowsOnGrid(m, trades);
  }

  lemma RateCovers(costs: Costs, open: real)
    requires costs.Rate?
    ensures CoversOpen(costs, open)
  {}

  lemma TenthsAreOnGrid(x: real)
    requires InTenths(x)
    ensures OnGrid8(x)
  {
    var k :| x == Tenths(k);
    assert x == Units8(10000000 * k);
  }

  lemma OrdinaryOpensAreCovered(costs: Costs, open: real)
    requires open > 0.0 && (open >= 0.00000501 || OnGrid8(open))
    ensures CoversOpen(costs, open)
  {
    hide FillPrice;
    if costs.Policy? {
      if OnGrid8(open) {
        RoundingFixesGrid(open);
      }
      BuysCoverTheOpenExactlyWhen(open);
    }
  }

  // ---------------------------------------------------------------- where the rows are not the loss

  const OrdinaryMarket := Market([100.01], [0.62], Policy)
  const OrdinaryStart := Book(200.0, [0], [])
  const OrdinaryBook := Bought(OrdinaryStart, 0, 12373, 100.01, (100.11001, 0.02477322))

  /** An ordinary open, an ordinary purchase: it gives away 0.123742373 and its row says
      0.12374237, so the loss is more than what is reported. */
  lemma OrdinaryBuyIsRounded()
    ensures Rebalanced(OrdinaryMarket, OrdinaryStart) == Some(OrdinaryBook)
    ensures BuysCovered(OrdinaryMarket, OrdinaryBook.trades)
    ensures OrdinaryBook.trades[0].slippage == 0.12374237
    ensures Equity(OrdinaryStart, OrdinaryMarket) - Equity(OrdinaryBook, OrdinaryMarket)
         == Reported(OrdinaryBook.trades) + 0.000000003
  {
    hide Rebalanced, Equity, OnGrid8, Bought;
    OrdinaryRebalance();
    OrdinaryRow();
    LossIsWhatTradesReport(OrdinaryMarket, 200.0, [0]);
    OneRow(OrdinaryBook.trades);
  }

  lemma OneRow(trades: seq<Trade>)
    requires |trades| == 1
    ensures Reported(trades) == trades[0].fee + trades[0].slippage
    ensures Residues(trades) == Distance(trades[0]) - trades[0].slippage
    ensures Shortfalls(trades) == Shortfall(trades[0])
  {
    hide Distance, Shortfall;
    assert trades[..0] == [];
    assert Reported(trades[..0]) == Residues(trades[..0]) == Shortfalls(trades[..0]) == 0.0;
  }

  lemma OrdinaryRow()
    ensures |OrdinaryBook.trades| == 1 && OrdinaryBook.trades[0].side.Buy?
    ensures OrdinaryBook.trades[0].slippage == 0.12374237 && OrdinaryBook.trades[0].fee == 0.02477322
    ensures Distance(OrdinaryBook.trades[0]) == 0.123742373 && Shortfall(OrdinaryBook.trades[0]) == 0.0
  {
    hide Round8;
    assert Round8(0.123742373) == 0.12374237 by { OrdinaryRounding(); }
    var t := NewTrade(0, Buy, 12373, 100.01, (100.11001, 0.02477322));
    assert OrdinaryBook.trades == [t];
  }

  lemma OrdinaryRounding()
    ensures Round8(0.123742373) == 0.12374237
  {
    assert (0.123742373 * 100000000.0).Floor == 12374237;
  }

  lemma OrdinaryRebalance()
    ensures Rebalanced(OrdinaryMarket, OrdinaryStart) == Some(OrdinaryBook)
  {
    hide Value, Execute, UnitsIn, BuyStep, SellStep, Bought;
    var equity := Equity(OrdinaryStart, OrdinaryMarket);
    OrdinaryStep();
    assert SellPass(OrdinaryMarket, OrdinaryStart, 0) == Some(OrdinaryStart);
    assert SellPass(OrdinaryMarket, OrdinaryStart, 1) == Some(OrdinaryStart);
    assert BuyPass(OrdinaryMarket, equity, OrdinaryStart, 0) == Some(OrdinaryStart);
    assert BuyPass(OrdinaryMarket, equity, OrdinaryStart, 1) == Some(OrdinaryBook);
  }

  lemma OrdinaryStep()
    ensures Equity(OrdinaryStart, OrdinaryMarket) == 200.0 && Target(OrdinaryMarket, 200.0, 0) == 123.752
    ensures SellStep(OrdinaryMarket, 123.752, OrdinaryStart, 0) == Some(OrdinaryStart)
    ensures BuyStep(OrdinaryMarket, 123.752, OrdinaryStart, 0) == Some(OrdinaryBook)
  {
    hide Value, Execute, UnitsIn, Round8;
    NothingIsWorthNothing(100.01);
    OrdinaryFill();
    OrdinaryUnits();
    assert Held([], []) == 0.0;
    assert OrdinaryStart.holdings[..0] == [] && OrdinaryMarket.opens[..0] == [];
    assert Held(OrdinaryStart.holdings, OrdinaryMarket.opens) == Held([], []) + Value(0, 100.01);
  }

  lemma OrdinaryFill()
    ensures Execute(Policy, Buy, 12373, 100.01) == Some((100.11001, 0.02477322))
    ensures Value(12373, 100.11001) == 123.866115373
  {
    assert (1.2373 * 100000000.0).Floor == 123730000;
    assert (100.01 * 100000000.0).Floor == 10001000000;
    assert (100.01 * 1.001 * 100000000.0).Floor == 10011001000;
    assert (123.866115373 * FEE_RATE * 100000000.0).Floor == 2477322;
  }

  lemma OrdinaryUnits()
    ensures UnitsIn(123.752, 100.01) == 12373 && UnitsIn(200.0, 100.01) == 19998
  {
    assert (123.752 / 100.01 * 10000.0).Floor == 12373;
    assert (200.0 / 100.01 * 10000.0).Floor == 19998;
  }

  const CHEAP: real := 0.00000001497
  const CheapMarket := Market([CHEAP], [0.000015], Policy)
  const CheapStart := Book(1.0, [0], [])
  const CheapBook := Bought(CheapStart, 0, 10000000, CHEAP, (0.00000001, 0.01))

  /** A purchase below its open: a thousand shares at an open of 0.00000001497 fill at 0.00000001.
      The rebalance loses its fee less 0.00000497, and reports its fee and 0.00000497 more. */
  lemma CheapBuyIsMisreported()
    ensures Rebalanced(CheapMarket, CheapStart) == Some(CheapBook)
    ensures Equity(CheapStart, CheapMarket) - Equity(CheapBook, CheapMarket) == 0.01 - 0.00000497
    ensures Reported(CheapBook.trades) == 0.01 + 0.00000497
  {
    hide Rebalanced, Equity, OnGrid8, Bought;
    CheapRebalance();
    CheapRow();
    LossIsWhatTradesReport(CheapMarket, 1.0, [0]);
    OneRow(CheapBook.trades);
  }

  lemma CheapRow()
    ensures |CheapBook.trades| == 1 && CheapBook.trades[0].fee == 0.01
    ensures CheapBook.trades[0].slippage == Distance(CheapBook.trades[0]) == Shortfall(CheapBook.trades[0]) == 0.00000497
  {
    hide Round8;
    assert Round8(0.00000497) == 0.00000497 by { RoundingFixesGrid(Units8(497)); }
    var t := NewTrade(0, Buy, 10000000, CHEAP, (0.00000001, 0.01));
    assert CheapBook.trades == [t];
  }

  lemma CheapRebalance()
    ensures Rebalanced(CheapMarket, CheapStart) == Some(CheapBook)
  {
    hide Value, Execute, UnitsIn, BuyStep, SellStep, Bought;
    var equity := Equity(CheapStart, CheapMarket);
    CheapTarget();
    assert SellPass(CheapMarket, CheapStart, 0) == Some(CheapStart);
    assert SellPass(CheapMarket, CheapStart, 1) == Some(CheapStart);
    assert BuyPass(CheapMarket, equity, CheapStart, 0) == Some(CheapStart);
    assert BuyPass(CheapMarket, equity, CheapStart, 1) == Some(CheapBook);
  }

  lemma CheapTarget()
    ensures Equity(CheapStart, CheapMarket) == 1.0 && Target(CheapMarket, 1.0, 0) == 0.00001497
    ensures SellStep(CheapMarket, 0.00001497, CheapStart, 0) == Some(CheapStart)
    ensures BuyStep(CheapMarket, 0.00001497, CheapStart, 0) == Some(CheapBook)
  {
    hide Value, Execute, UnitsIn, Round8;
    NothingIsWorthNothing(CHEAP);
    CheapFee(10000000);
    CheapUnits();
    assert Held([], []) == 0.0;
    assert CheapStart.holdings[..0] == [] && CheapMarket.opens[..0] == [];
    assert Held(CheapStart.holdings, CheapMarket.opens) == Held([], []) + Value(0, CHEAP);
  }

  lemma NothingIsWorthNothing(price: real)
    ensures Value(0, price) == 0.0
  {}

  lemma CheapUnits()
    ensures UnitsIn(0.00001497, CHEAP) == 10000000 && UnitsIn(1.0, CHEAP) >= 10000000
    ensures Value(10000000, 0.00000001) == 0.00001
  {
    assert 0.00001497 / CHEAP == 1000.0;
    assert 1.0 / CHEAP >= 1000.0;
  }

  /** A ticker is sold when it starts above its target and bought when it does not. */
  ghost predicate OnItsSide(m: Market, start: Book, trades: seq<Trade>) {
    && Fits(m, start)
    && forall t <- trades ::
         && t.ticker < |m.opens|
         && (t.side.Sell? <==>
               Value(start.holdings[t.ticker], m.opens[t.ticker]) > Target(m, Equity(start, m), t.ticker))
  }

  lemma SellStepSide(m: Market, start: Book, b: Book, i: nat)
    requires Fits(m, b) && i < |m.opens| && OnItsSide(m, start, b.trades) && b.holdings[i] == start.holdings[i]
    requires SellStep(m, Target(m, Equity(start, m), i), b, i).Some?
    ensures OnItsSide(m, start, SellStep(m, Target(m, Equity(start, m), i), b, i).value.trades)
  {
    hide Value, Execute, UnitsIn, Equity, Target, Round8;
  }

  lemma {:induction false} SellPassSide(m: Market, start: Book, n: nat)
    requires Kept(m, start, start) && start.trades == [] && n <= |m.opens| && SellPass(m, start, n).Some?
    ensures OnItsSide(m, start, SellPass(m, start, n).value.trades)
  {
    hide SellStep, Equity, Target, TotalCost, TradesSound, SoldDown, Value, Net;
    if n > 0 {
      SellPassSide(m, start, n - 1);
      SellPassSells(m, start, n - 1);
      SellStepSide(m, start, SellPass(m, start, n - 1).value, n - 1);
    }
  }

  lemma BuyStepSide(m: Market, start: Book, b: Book, i: nat)
    requires Fits(m, b) && i < |m.opens| && OnItsSide(m, start, b.trades)
    requires BuyStep(m, Target(m, Equity(start, m), i), b, i).Some?
    requires SoldDown(Target(m, Equity(start, m), i), m.opens[i], start.holdings[i], b.holdings[i])
    ensures OnItsSide(m, start, BuyStep(m, Target(m, Equity(start, m), i), b, i).value.trades)
  {
    hide Value, Execute, UnitsIn, Equity, Target, Round8;
  }

  lemma {:induction false} BuyPassSide(m: Market, start: Book, n: nat)
    requires Kept(m, start, start) && start.trades == [] && n <= |m.opens|
    requires SellPass(m, start, |m.opens|).Some?
    requires BuyPass(m, Equity(start, m), SellPass(m, start, |m.opens|).value, n).Some?
    ensures OnItsSide(m, start, BuyPass(m, Equity(start, m), SellPass(m, start, |m.opens|).value, n).value.trades)
  {
    hide BuyStep, SellPass, Equity, Target, TotalCost, TradesSound, SoldDown, BoughtUp, Value, Net;
    var sold := SellPass(m, start, |m.opens|).value;
    SellPassSells(m, start, |m.opens|);
    if n == 0 {
      SellPassSide(m, start, |m.opens|);
    } else {
      BuyPassSide(m, start, n - 1);
      BuyPassBuys(m, start, Equity(start, m), sold, n - 1);
      BuyStepSide(m, start, BuyPass(m, Equity(start, m), sold, n - 1).value, n - 1);
    }
  }

  /** No ticker is both sold and bought. One that starts above its target ends at or above it,
      by less than a share quantum unless nothing is left; one that starts below is never
      lifted above it. */
  lemma RebalanceReachesTargets(m: Market, cash: real, holdings: seq<nat>, i: nat)
    requires |m.opens| == |m.weights| == |holdings| && i < |holdings|
    requires Rebalanced(m, Book(cash, holdings, [])).Some?
    ensures var start := Book(cash, holdings, []);
            var b := Rebalanced(m, start).value;
            var target := Target(m, Equity(start, m), i);
            && (forall t <- b.trades, u <- b.trades :: t.ticker == u.ticker ==> t.side == u.side)
            && OnItsSide(m, start, b.trades)
            && (m.opens[i] > 0.0 && Value(holdings[i], m.opens[i]) > target ==>
                  SoldDown(target, m.opens[i], holdings[i], b.holdings[i]))
            && (m.opens[i] <= 0.0 || Value(holdings[i], m.opens[i]) <= target ==>
                  BoughtUp(target, m.opens[i], holdings[i], b.holdings[i]))
  {
    hide SellPass, BuyPass, Equity, Kept, Target, Value;
    var start := Book(cash, holdings, []);
    StartKept(m, cash, holdings);
    SellPassSells(m, start, |m.opens|);
    BuyPassBuys(m, start, Equity(start, m), SellPass(m, start, |m.opens|).value, |m.opens|);
    BuyPassSide(m, start, |m.opens|);
  }

  /** What selling a ticker above its target brings in, less the fee. */
  function Proceeds(m: Market, target: real, held: nat, i: nat): real
    requires i < |m.opens|
  {
    var open := m.opens[i];
    if open <= 0.0 || Value(held, open) <= target then 0.0
    else
      var wanted := UnitsIn(Value(held, open) - target, open);
      var units := if wanted < held then wanted else held;
      var fill := if units <= 0 then None else Execute(m.costs, Sell, units, open);
      if fill.None? then 0.0 else Value(units, fill.value.0) - fill.value.1
  }

  /** The same for the first n tickers together. */
  function AllProceeds(m: Market, equityAtOpen: real, holdings: seq<nat>, n: nat): real
    requires |m.opens| == |m.weights| == |holdings| && n <= |holdings|
  {
    if n == 0 then 0.0
    else
      AllProceeds(m, equityAtOpen, holdings, n - 1)
      + Proceeds(m, Target(m, equityAtOpen, n - 1), holdings[n - 1], n - 1)
  }

  lemma SellStepRaises(m: Market, target: real, b: Book, i: nat)
    requires Fits(m, b) && i < |m.opens| && SellStep(m, target, b, i).Some?
    ensures SellStep(m, target, b, i).value.cash == b.cash + Proceeds(m, target, b.holdings[i], i)
  {
    hide Value, Execute, UnitsIn;
  }

  lemma {:induction false} SellPassRaises(m: Market, start: Book, n: nat)
    requires Kept(m, start, start) && n <= |m.opens| && SellPass(m, start, n).Some?
    ensures SellPass(m, start, n).value.cash == start.cash + AllProceeds(m, Equity(start, m), start.holdings, n)
  {
    hide SellStep, Target, Equity, Proceeds, SoldDown, TotalCost, TradesSound, Net;
    if n > 0 {
      SellPassRaises(m, start, n - 1);
      SellPassSells(m, start, n - 1);
      SellStepRaises(m, Target(m, Equity(start, m), n - 1), SellPass(m, start, n - 1).value, n - 1);
    }
  }

  lemma {:induction false} ProceedsAddUp(m: Market, equityAtOpen: real, holdings: seq<nat>, n: nat)
    requires |m.opens| == |m.weights| == |holdings| && n <= |holdings|
    requires forall i :: 0 <= i < n ==> Proceeds(m, Target(m, equityAtOpen, i), holdings[i], i) >= 0.0
    ensures AllProceeds(m, equityAtOpen, holdings, n) >= 0.0
  {
    hide Proceeds, Target;
    if n > 0 {
      ProceedsAddUp(m, equityAtOpen, holdings, n - 1);
    }
  }

  /** Cents rounded half to even are non-negative from half a cent below zero on. */
  lemma RoundsToNonNegative(x: real)
    ensures Round2(x) >= 0.0 <==> x >= -0.005
  {
    if x >= -0.005 {
      HalfEvenMonotone(-0.5, x * 100.0);
    } else {
      assert x * 100.0 < -0.5;
      assert HalfEven(x * 100.0) <= -1;
    }
  }

  /** The cash a rebalance returns is non-negative exactly when opening cash plus what the sales
      bring in, all of it known at the open, is no more than half a cent below zero: buying
      never overdraws, and a book overdrawn by sale fees buys nothing. It is enough that every
      sale covers its fee. */
  lemma CashStaysNonNegativeExactlyWhen(m: Market, cash: real, holdings: seq<nat>)
    requires |m.opens| == |m.weights| == |holdings|
    requires Rebalanced(m, Book(cash, holdings, [])).Some?
    ensures var start := Book(cash, holdings, []);
            var b := Rebalanced(m, start).value;
            var raised := cash + AllProceeds(m, Equity(start, m), holdings, |holdings|);
            && (b.cash >= 0.0 <==> raised >= 0.0)
            && (Round2(b.cash) >= 0.0 <==> raised >= -0.005)
            && (cash >= 0.0
                && (forall i :: 0 <= i < |holdings| ==>
                      Proceeds(m, Target(m, Equity(start, m), i), holdings[i], i) >= 0.0)
                ==> raised >= 0.0)
  {
    hide SellPass, BuyPass, Equity, Kept, Proceeds, AllProceeds, Round2, Target;
    var start := Book(cash, holdings, []);
    StartKept(m, cash, holdings);
    SellPassSells(m, start, |m.opens|);
    SellPassRaises(m, start, |m.opens|);
    BuyPassBuys(m, start, Equity(start, m), SellPass(m, start, |m.opens|).value, |m.opens|);
    RoundsToNonNegative(Rebalanced(m, start).value.cash);
    if forall i :: 0 <= i < |holdings| ==> Proceeds(m, Target(m, Equity(start, m), i), holdings[i], i) >= 0.0 {
      ProceedsAddUp(m, Equity(start, m), holdings, |holdings|);
    }
  }

  /** It can go below zero: the minimum fee on a sale worth less than it. */
  lemma TinySaleOverdraws()
    ensures var m := Market([1.0], [0.0], Policy);
            var b := Rebalanced(m, Book(0.0, [1], []));
            b.Some? && b.value.cash < 0.0 && Round2(b.value.cash) == -0.01
  {
    var m := Market([1.0], [0.0], Policy);
    var start := Book(0.0, [1], []);
    assert Held([1], [1.0]) == 0.0001 by {
      assert [1][..0] == [] && [1.0][..0] == [];
    }
    assert Target(m, Equity(start, m), 0) == 0.0;
    assert UnitsIn(0.0001, 1.0) == 1;
    TinyFill();
    var b := Sold(start, 0, 1, 1.0, (0.999, 0.01));
    assert SellPass(m, start, 0) == Some(start);
    assert SellStep(m, 0.0, start, 0) == Some(b);
    assert SellPass(m, start, 1) == Some(b);
    assert BuyPass(m, Equity(start, m), b, 0) == Some(b);
    assert Value(0, 1.0) == 0.0;
    assert BuyStep(m, 0.0, b, 0) == Some(b);
    assert (b.cash * 100.0).Floor == -1;
  }

  lemma TinyFill()
    ensures Execute(Policy, Sell, 1, 1.0) == Some((0.999, 0.01))
  {
    assert (0.0001 * 100000000.0).Floor == 10000;
    assert (1.0 * 100000000.0).Floor == 100000000;
    assert (1.0 * 0.999 * 100000000.0).Floor == 99900000;
    assert (0.01 * 100000000.0).Floor == 1000000;
  }

  // ---------------------------------------------------------------- buying stops for a reason

  /** The constructor refuses a negative flat rate. */
  predicate CostsSound(m: Market) { m.costs.Rate? ==> m.costs.rate >= 0.0 }

  /** How many units the ticker is short of its target. */
  function Short(m: Market, target: real, held: nat, i: nat): int
    requires i < |m.opens| && m.opens[i] != 0.0
  {
    UnitsIn(target - Value(held, m.opens[i]), m.opens[i])
  }

  /** The cash would not pay for one more quantum and the fee of at most `most` units. */
  ghost predicate OutOfCash(m: Market, i: nat, cash: real, most: int)
    requires i < |m.opens|
  {
    || cash < Value(1, m.opens[i])
    || exists units: nat, fill :: units <= most && Execute(m.costs, Buy, units, m.opens[i]) == Some(fill)
                                  && cash < Value(1, fill.0) + fill.1
  }

  lemma PolicyFill(units: nat, quote: real)
    requires Execute(Policy, Buy, units, quote).Some?
    ensures var price := FillPrice(Buy, Trunc8(quote));
            Execute(Policy, Buy, units, quote) == Some((price, Fee(price, Shares(units))))
            && price > 0.0 && Fee(price, Shares(units)) >= 0.0
  {
    hide FillPrice, Fee, Trunc8;
    PolicyFillsExactly(Buy, units, quote);
    FillContract(Buy, Shares(units), quote, Standard);
  }

  lemma FeeGrows(costs: Costs, fewer: nat, units: nat, quote: real)
    requires fewer <= units && quote > 0.0 && (costs.Rate? ==> costs.rate >= 0.0)
    requires Execute(costs, Buy, fewer, quote).Some? && Execute(costs, Buy, units, quote).Some?
    ensures var small, large := Execute(costs, Buy, fewer, quote).value, Execute(costs, Buy, units, quote).value;
            small.0 == large.0 && 0.0 <= small.1 <= large.1
  {
    hide FillPrice, Fee, Trunc8, Evaluate, Value, Round2, Times;
    if costs.Rate? {
      ValueGrows(fewer, units, quote);
      RateGrows(Value(fewer, quote), Value(units, quote), costs.rate);
    } else {
      PolicyFill(fewer, quote);
      PolicyFill(units, quote);
      PolicyFeeGrows(FillPrice(Buy, Trunc8(quote)), fewer, units);
    }
  }

  lemma PolicyFeeGrows(price: real, fewer: nat, units: nat)
    requires fewer <= units && price > 0.0
    ensures Fee(price, Shares(fewer)) <= Fee(price, Shares(units))
  {
    hide Round8;
    assert Times(price, Shares(fewer)) <= Times(price, Shares(units));
    Round8Monotone(Max(MIN_FEE, Times(price, Shares(fewer)) * FEE_RATE), Max(MIN_FEE, Times(price, Shares(units)) * FEE_RATE));
  }

  lemma RateGrows(a: real, b: real, rate: real)
    requires 0.0 <= a <= b && rate >= 0.0
    ensures 0.0 <= Round2(Times(a, rate)) <= Round2(Times(b, rate))
  {
    hide Times, HalfEven;
    ProductsGrow(a, b, rate);
    HalfEvenMonotone(0.0, Times(a, rate) * 100.0);
    HalfEvenMonotone(Times(a, rate) * 100.0, Times(b, rate) * 100.0);
    assert HalfEven(0.0) == 0 by { ZeroRounds(); }
  }

  lemma ProductsGrow(a: real, b: real, rate: real)
    requires 0.0 <= a <= b && rate >= 0.0
    ensures 0.0 <= Times(a, rate) <= Times(b, rate)
  {}

  lemma ZeroRounds()
    ensures HalfEven(0.0) == 0
  {}

  /** A buy step never raises cash, and stops short of the target only when out of cash. */
  lemma BuyStepSpends(m: Market, target: real, b: Book, i: nat)
    requires Fits(m, b) && i < |m.opens| && BuyStep(m, target, b, i).Some?
    requires CostsSound(m)
    ensures var b' := BuyStep(m, target, b, i).value;
            && b'.cash <= b.cash
            && (m.opens[i] > 0.0 && Value(b.holdings[i], m.opens[i]) < target && CoversOpen(m.costs, m.opens[i]) ==>
                  || target < Value(b'.holdings[i] + 1, m.opens[i])
                  || OutOfCash(m, i, b'.cash, Short(m, target, b.holdings[i], i)))
  {
    hide Value, Execute, UnitsIn, CoversOpen, OutOfCash;
    var open := m.opens[i];
    var b' := BuyStep(m, target, b, i).value;
    if open > 0.0 && Value(b.holdings[i], open) < target {
      var delta := target - Value(b.holdings[i], open);
      var desired := UnitsIn(delta, open);
      UnitsFit(delta, open);
      ValueAdds(b.holdings[i], desired + 1, open);
      var affordable := UnitsIn(b.cash, open);
      if b.cash < 0.0 {
        NoUnitsInNothing(b.cash, open);
        ValueGrows(0, 1, open);
        ShortOfOne(m, i, b.cash, desired);
      } else {
        UnitsFit(b.cash, open);
        var units := if affordable < desired then affordable else desired;
        if units <= 0 {
          if affordable <= 0 {
            ShortOfOne(m, i, b.cash, desired);
          }
        } else {
          FirstAttempt(m, target, b, i, units);
        }
      }
    }
  }

  lemma ShortOfOne(m: Market, i: nat, cash: real, most: int)
    requires i < |m.opens| && cash < Value(1, m.opens[i])
    ensures OutOfCash(m, i, cash, most)
  {}

  lemma ShortOfOneAndFee(m: Market, i: nat, cash: real, units: nat, fill: (real, real), most: int)
    requires i < |m.opens| && units <= most && Execute(m.costs, Buy, units, m.opens[i]) == Some(fill)
    requires cash < Value(1, fill.0) + fill.1
    ensures OutOfCash(m, i, cash, most)
  {}

  lemma FirstAttempt(m: Market, target: real, b: Book, i: nat, units: nat)
    requires Fits(m, b) && i < |m.opens| && BuyStep(m, target, b, i).Some?
    requires CostsSound(m) && m.opens[i] > 0.0 && Value(b.holdings[i], m.opens[i]) < target
    requires b.cash >= 0.0 && units > 0
    requires var desired := UnitsIn(target - Value(b.holdings[i], m.opens[i]), m.opens[i]);
             var affordable := UnitsIn(b.cash, m.opens[i]);
             units == if affordable < desired then affordable else desired
    ensures var b' := BuyStep(m, target, b, i).value;
            && b'.cash <= b.cash
            && (CoversOpen(m.costs, m.opens[i]) ==>
                  || target < Value(b'.holdings[i] + 1, m.opens[i])
                  || OutOfCash(m, i, b'.cash, Short(m, target, b.holdings[i], i)))
  {
    hide Value, Execute, UnitsIn, CoversOpen, OutOfCash;
    var open := m.opens[i];
    var b' := BuyStep(m, target, b, i).value;
    var delta := target - Value(b.holdings[i], open);
    var desired := UnitsIn(delta, open);
    UnitsFit(delta, open);
    UnitsFit(b.cash, open);
    var fill := Execute(m.costs, Buy, units, open).value;
    var (price, fee) := fill;
    FillIsPriced(m.costs, Buy, units, open);
    FeeGrows(m.costs, units, units, open);
    ValueGrows(0, units, price);
    ValueGrows(0, 1, price);
    if Value(units, price) + fee <= b.cash {
      if units == desired {
        ValueAdds(b.holdings[i], units + 1, open);
      } else if CoversOpen(m.costs, open) {
        ValueAdds(units, 1, open);
        ValueAtHigherPrice(units, open, price);
        ShortOfOne(m, i, b'.cash, desired);
      }
    } else if b.cash - fee <= 0.0 {
      assert price > 0.0 && Value(1, price) > 0.0 by { QuantumValue(price); }
      ShortOfOneAndFee(m, i, b'.cash, units, fill, desired);
    } else {
      var fewer := UnitsIn(b.cash - fee, price);
      SecondAttemptIsSmaller(b.cash, fee, price, units);
      UnitsFit(b.cash - fee, price);
      ValueAdds(fewer, 1, price);
      if fewer > 0 {
        FeeGrows(m.costs, fewer, units, open);
        ValueGrows(0, fewer, price);
      } else {
        ValueAdds(0, 0, price);
      }
      ShortOfOneAndFee(m, i, b'.cash, units, fill, desired);
    }
  }

  lemma ValueAtHigherPrice(units: nat, low: real, high: real)
    requires low <= high
    ensures Value(units, low) <= Value(units, high)
  {}

  lemma {:induction false} BuyPassSpends(m: Market, equityAtOpen: real, sold: Book, n: nat, i: nat)
    requires Fits(m, sold) && i < n <= |m.opens| && BuyPass(m, equityAtOpen, sold, n).Some?
    requires CostsSound(m) && CoversOpen(m.costs, m.opens[i])
    requires m.opens[i] > 0.0 && Value(sold.holdings[i], m.opens[i]) < Target(m, equityAtOpen, i)
    ensures var b := BuyPass(m, equityAtOpen, sold, n).value;
            || Target(m, equityAtOpen, i) < Value(b.holdings[i] + 1, m.opens[i])
            || OutOfCash(m, i, b.cash, Short(m, Target(m, equityAtOpen, i), sold.holdings[i], i))
  {
    hide BuyStep, Target, Value, Execute, CoversOpen, OutOfCash, Short;
    var b := BuyPass(m, equityAtOpen, sold, n - 1).value;
    var target := Target(m, equityAtOpen, n - 1);
    BuyStepSpends(m, target, b, n - 1);
    if i == n - 1 {
      UntouchedYet(m, equityAtOpen, sold, n - 1, i);
    } else {
      BuyPassSpends(m, equityAtOpen, sold, n - 1, i);
      BuyStepBuys(m, target, b, n - 1);
      LessCash(m, i, b.cash, BuyStep(m, target, b, n - 1).value.cash,
               Short(m, Target(m, equityAtOpen, i), sold.holdings[i], i));
    }
  }

  lemma LessCash(m: Market, i: nat, cash: real, less: real, most: int)
    requires i < |m.opens| && less <= cash
    ensures OutOfCash(m, i, cash, most) ==> OutOfCash(m, i, less, most)
  {
    hide Value, Execute;
  }

  lemma {:induction false} UntouchedYet(m: Market, equityAtOpen: real, sold: Book, n: nat, i: nat)
    requires Fits(m, sold) && n <= i < |m.opens| && BuyPass(m, equityAtOpen, sold, n).Some?
    ensures BuyPass(m, equityAtOpen, sold, n).value.holdings[i] == sold.holdings[i]
  {
    hide BuyStep;
    if n > 0 {
      UntouchedYet(m, equityAtOpen, sold, n - 1, i);
      BuyStepBuys(m, Target(m, equityAtOpen, n - 1), BuyPass(m, equityAtOpen, sold, n - 1).value, n - 1);
    }
  }

  /** A ticker left below its target, with a policy price that covers its open, is within one
      share quantum of it, or the cash left would not pay for another quantum and the fee of at
      most what it is short of its target. */
  lemma BuyingStopsForAReason(m: Market, cash: real, holdings: seq<nat>, i: nat)
    requires |m.opens| == |m.weights| == |holdings| && i < |holdings| && CostsSound(m) && CoversOpen(m.costs, m.opens[i])
    requires Rebalanced(m, Book(cash, holdings, [])).Some?
    ensures var start := Book(cash, holdings, []);
            var b := Rebalanced(m, start).value;
            var target := Target(m, Equity(start, m), i);
            m.opens[i] > 0.0 && Value(holdings[i], m.opens[i]) < target ==>
              || target < Value(b.holdings[i] + 1, m.opens[i])
              || OutOfCash(m, i, b.cash, Short(m, target, holdings[i], i))
  {
    hide SellPass, BuyPass, Equity, Target, Value, OutOfCash, CoversOpen, Short;
    var start := Book(cash, holdings, []);
    StartKept(m, cash, holdings);
    SellPassSells(m, start, |m.opens|);
    var sold := SellPass(m, start, |m.opens|).value;
    if m.opens[i] > 0.0 && Value(holdings[i], m.opens[i]) < Target(m, Equity(start, m), i) {
      BuyPassSpends(m, Equity(start, m), sold, |m.opens|, i);
    }
  }

  // ---------------------------------------------------------------- a cheap ticker left short

  const ShortMarket := Market([CHEAP], [2.0], Policy)
  const AFFORDABLE := 668002672010
  const WANTED := 1333333333333
  const ShortBook := Bought(CheapStart, 0, AFFORDABLE, CHEAP, (0.00000001, 0.01))

  lemma ShortUnits()
    ensures UnitsIn(1.0, CHEAP) == AFFORDABLE && UnitsIn(1.996, CHEAP) == WANTED
    ensures Value(AFFORDABLE, 0.00000001) == 0.66800267201 && Value(1, 0.00000001) == 0.000000000001
    ensures Value(AFFORDABLE + 1, CHEAP) < 1.1 && Value(1, CHEAP) < 0.1
  {
    assert (1.0 / CHEAP * 10000.0).Floor == AFFORDABLE;
    assert (1.996 / CHEAP * 10000.0).Floor == WANTED;
  }

  lemma CheapFee(units: nat)
    requires 0 < units <= WANTED
    ensures Execute(Policy, Buy, units, CHEAP) == Some((0.00000001, 0.01))
  {
    hide Round8, Trunc8, Times, Execute;
    CheapPrice();
    SmallFee(units);
    assert Shares(units) == Units8(units * 10000);
    RoundingFixesGrid(Shares(units));
    ExecuteIs(units);
  }

  lemma ExecuteIs(units: nat)
    requires units > 0 && Trunc8(Shares(units)) == Shares(units)
    requires Trunc8(CHEAP) == FillPrice(Buy, 0.00000001) == 0.00000001 && Fee(0.00000001, Shares(units)) == 0.01
    ensures Execute(Policy, Buy, units, CHEAP) == Some((0.00000001, 0.01))
  {
    hide Trunc8, FillPrice, Fee;
  }

  lemma CheapPrice()
    ensures Trunc8(CHEAP) == FillPrice(Buy, 0.00000001) == 0.00000001
  {
    assert (CHEAP * 100000000.0).Floor == 1;
    assert (0.00000001 * 1.001 * 100000000.0).Floor == 1;
  }

  lemma SmallFee(units: nat)
    requires units <= WANTED
    ensures Fee(0.00000001, Shares(units)) == 0.01
  {
    assert Times(0.00000001, Shares(units)) * FEE_RATE < MIN_FEE;
    assert (0.01 * 100000000.0).Floor == 1000000;
  }

  /** Below the range where the policy covers the open, buying can stop with cash to spare: what
      the cash would pay for is counted at the open, and then costs less. Here a third of the
      cash is left and the ticker is far short of its target. */
  lemma CheapBuyLeavesCash()
    ensures Rebalanced(ShortMarket, CheapStart) == Some(ShortBook)
    ensures var target := Target(ShortMarket, Equity(CheapStart, ShortMarket), 0);
            && target >= Value(ShortBook.holdings[0] + 1, CHEAP) && ShortBook.cash > 0.3
            && !OutOfCash(ShortMarket, 0, ShortBook.cash, Short(ShortMarket, target, 0, 0))
  {
    hide Value, Execute, UnitsIn, BuyStep, SellStep, CoversOpen;
    ShortStep();
    ShortUnits();
    NothingIsWorthNothing(CHEAP);
    var equity := Equity(CheapStart, ShortMarket);
    assert SellPass(ShortMarket, CheapStart, 0) == Some(CheapStart);
    assert SellPass(ShortMarket, CheapStart, 1) == Some(CheapStart);
    assert BuyPass(ShortMarket, equity, CheapStart, 0) == Some(CheapStart);
    assert BuyPass(ShortMarket, equity, CheapStart, 1) == Some(ShortBook);
    forall units: nat, fill | units <= WANTED && Execute(Policy, Buy, units, CHEAP) == Some(fill)
      ensures ShortBook.cash >= Value(1, fill.0) + fill.1
    {
      if units == 0 {
        NoFillForNothing();
      } else {
        CheapFee(units);
      }
    }
  }

  lemma NoFillForNothing()
    ensures Execute(Policy, Buy, 0, CHEAP).None?
  {
    assert Trunc8(0.0) == 0.0;
  }

  lemma ShortStep()
    ensures Equity(CheapStart, ShortMarket) == 1.0 && Target(ShortMarket, 1.0, 0) == 1.996
    ensures SellStep(ShortMarket, 1.996, CheapStart, 0) == Some(CheapStart)
    ensures BuyStep(ShortMarket, 1.996, CheapStart, 0) == Some(ShortBook)
  {
    hide Value, Execute, UnitsIn, CoversOpen;
    NothingIsWorthNothing(CHEAP);
    CheapFee(AFFORDABLE);
    ShortUnits();
    assert Held([], []) == 0.0;
    assert CheapStart.holdings[..0] == [] && ShortMarket.opens[..0] == [];
    assert Held(CheapStart.holdings, ShortMarket.opens) == Held([], []) + Value(0, CHEAP);
  }
}
