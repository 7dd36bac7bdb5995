/** One rebalance of a portfolio (apps/api/app/backtest/portfolio_engine.py:498-524 and
    734-856): a pass that sells what is above target, then a pass that buys what is below.
    Tickers are numbered; holdings count ten-thousandths of a share. */
module Portfolio {
  import opened Decimals
  import opened Outcomes
  import opened PaperPolicy

  /** The canonical paper policy, or an explicit flat rate with fills at the quote. */
  datatype Costs = Policy | Rate(rate: real)

  /** A trade row; its slippage and cost columns hold eight decimals. */
  datatype Trade = Trade(
    ticker: nat, side: Side, units: nat, quote: real, price: real, fee: real, slippage: real, cost: real)

  datatype Book = Book(cash: real, holdings: seq<nat>, trades: seq<Trade>)

  /** What is known when the rebalance starts: opening prices and the wanted weights. */
  datatype Market = Market(opens: seq<real>, weights: seq<real>, costs: Costs)

  function Shares(units: nat): real { units as real / 10000.0 }

  function Value(units: nat, price: real): real { Times(Shares(units), price) }

  /** Whole share quanta in an amount at a price, rounded down. */
  function UnitsIn(amount: real, price: real): int
    requires price != 0.0
  {
    TowardZero(amount / price * 10000.0)
  }

  function Execute(costs: Costs, side: Side, units: nat, quote: real): Option<(real, real)> {
    if costs.Rate? then Some((quote, Round2(Times(Value(units, quote), costs.rate))))
    else
      var d := Evaluate(side, Shares(units), quote, Standard);
      if d.Rejected? then None else Some((d.price, d.fee))
  }

  function Held(holdings: seq<nat>, opens: seq<real>): real
    requires |holdings| == |opens|
  {
    if holdings == [] then 0.0
    else
      var n := |holdings| - 1;
      Held(holdings[..n], opens[..n]) + Value(holdings[n], opens[n])
  }

  function Equity(b: Book, m: Market): real
    requires |b.holdings| == |m.opens|
  {
    b.cash + Held(b.holdings, m.opens)
  }

  function Target(m: Market, equityAtOpen: real, i: nat): real
    requires i < |m.weights|
  {
    Times(equityAtOpen * 0.998, m.weights[i])
  }

  // ---------------------------------------------------------------- one ticker

  function NewTrade(i: nat, side: Side, units: nat, quote: real, fill: (real, real)): Trade {
    var slippage := Times(Abs(fill.0 - quote), Shares(units));
    Trade(i, side, units, quote, fill.0, fill.1, Round8(slippage), Round8(slippage + fill.1))
  }

  function Sold(b: Book, i: nat, units: nat, quote: real, fill: (real, real)): Book
    requires i < |b.holdings| && units <= b.holdings[i]
  {
    Book(b.cash + (Value(units, fill.0) - fill.1), b.holdings[i := b.holdings[i] - units],
         b.trades + [NewTrade(i, Sell, units, quote, fill)])
  }

  function Bought(b: Book, i: nat, units: nat, quote: real, fill: (real, real)): Book
    requires i < |b.holdings|
  {
    Book(b.cash - (Value(units, fill.0) + fill.1), b.holdings[i := b.holdings[i] + units],
         b.trades + [NewTrade(i, Buy, units, quote, fill)])
  }

  function SellStep(m: Market, target: real, b: Book, i: nat): (r: Option<Book>)
    requires i < |m.opens| == |b.holdings|
    ensures r.Some? ==> |r.value.holdings| == |b.holdings|
  {
    var open := m.opens[i];
    if open <= 0.0 then Some(b)
    else
      var delta := target - Value(b.holdings[i], open);
      if delta >= 0.0 then Some(b)
      else
        var wanted := UnitsIn(-delta, open);
        var units := if wanted < b.holdings[i] then wanted else b.holdings[i];
        if units <= 0 then Some(b)
        else
          var fill := Execute(m.costs, Sell, units, open);
          if fill.None? then None else Some(Sold(b, i, units, open, fill.value))
  }

  function BuyStep(m: Market, target: real, b: Book, i: nat): (r: Option<Book>)
    requires i < |m.opens| == |b.holdings|
    ensures r.Some? ==> |r.value.holdings| == |b.holdings|
  {
    var open := m.opens[i];
    if open <= 0.0 then Some(b)
    else
      var delta := target - Value(b.holdings[i], open);
      if delta <= 0.0 then Some(b)
      else
        var desired := UnitsIn(delta, open);
        var affordable := UnitsIn(b.cash, open);
        var units := if affordable < desired then affordable else desired;
        if units <= 0 then Some(b)
        else
          var fill := Execute(m.costs, Buy, units, open);
          if fill.None? then None
          else if Value(units, fill.value.0) + fill.value.1 <= b.cash then Some(Bought(b, i, units, open, fill.value))
          else
            var spendable := b.cash - fill.value.1;
            if spendable <= 0.0 || fill.value.0 == 0.0 then Some(b)
            else
              var fewer := UnitsIn(spendable, fill.value.0);
              if fewer <= 0 then Some(b)
              else
                var again := Execute(m.costs, Buy, fewer, open);
                if again.None? then None
                else if Value(fewer, again.value.0) + again.value.1 > b.cash then Some(b)
                else Some(Bought(b, i, fewer, open, again.value))
  }

  // ---------------------------------------------------------------- the two passes

  predicate Fits(m: Market, b: Book) { |m.opens| == |m.weights| == |b.holdings| }

  /** The book after selling the first n tickers, None when the policy refuses a fill. */
  function SellPass(m: Market, b: Book, n: nat): (r: Option<Book>)
    requires Fits(m, b) && n <= |m.opens|
    ensures r.Some? ==> Fits(m, r.value)
  {
    if n == 0 then Some(b)
    else
      var before := SellPass(m, b, n - 1);
      if before.None? then None else SellStep(m, Target(m, Equity(b, m), n - 1), before.value, n - 1)
  }

  /** The book after buying the first n tickers; targets stay those of the opening equity. */
  function BuyPass(m: Market, equityAtOpen: real, b: Book, n: nat): (r: Option<Book>)
    requires Fits(m, b) && n <= |m.opens|
    ensures r.Some? ==> Fits(m, r.value)
  {
    if n == 0 then Some(b)
    else
      var before := BuyPass(m, equityAtOpen, b, n - 1);
      if before.None? then None else BuyStep(m, Target(m, equityAtOpen, n - 1), before.value, n - 1)
  }

  /** Everything but the last rounding of cash to cents. */
  function Rebalanced(m: Market, b: Book): (r: Option<Book>)
    requires Fits(m, b)
    ensures r.Some? ==> Fits(m, r.value)
  {
    var sold := SellPass(m, b, |m.opens|);
    if sold.None? then None else BuyPass(m, Equity(b, m), sold.value, |m.opens|)
  }

  /** As the source runs it. */
  method RebalancePortfolio(m: Market, cash: real, holdings: seq<nat>) returns (r: Result<(real, seq<nat>, seq<Trade>)>)
    requires |m.opens| == |m.weights| == |holdings|
    ensures var spec := Rebalanced(m, Book(cash, holdings, []));
            r == if spec.None? then Refused("policy rejected a fill")
                 else Ok((Round2(spec.value.cash), spec.value.holdings, spec.value.trades))
  {
    hide Value, Round2, SellStep, BuyStep, Target;
    ghost var start := Book(cash, holdings, []);
    var equityAtOpen := cash;
    for i := 0 to |holdings|
      invariant equityAtOpen == cash + Held(holdings[..i], m.opens[..i])
    {
      equityAtOpen := equityAtOpen + Value(holdings[i], m.opens[i]);
      assert holdings[..i + 1][..i] == holdings[..i] && m.opens[..i + 1][..i] == m.opens[..i];
    }
    assert holdings[..|holdings|] == holdings && m.opens[..|holdings|] == m.opens;
    var b := Book(cash, holdings, []);
    for i := 0 to |m.opens|
      invariant Fits(m, b) && SellPass(m, start, i) == Some(b)
    {
      var step := SellStep(m, Target(m, equityAtOpen, i), b, i);
      if step.None? {
        StuckSelling(m, start, i + 1);
        return Refused("policy rejected a fill");
      }
      b := step.value;
    }
    ghost var sold := b;
    for i := 0 to |m.opens|
      invariant Fits(m, b) && BuyPass(m, equityAtOpen, sold, i) == Some(b)
    {
      var step := BuyStep(m, Target(m, equityAtOpen, i), b, i);
      if step.None? {
        StuckBuying(m, equityAtOpen, sold, i + 1);
        return Refused("policy rejected a fill");
      }
      b := step.value;
    }
    r := Ok((Round2(b.cash), b.holdings, b.trades));
  }

  lemma {:induction false} StuckSelling(m: Market, b: Book, n: nat)
    requires Fits(m, b) && n <= |m.opens| && SellPass(m, b, n).None?
    ensures SellPass(m, b, |m.opens|).None?
    decreases |m.opens| - n
  {
    if n < |m.opens| {
      StuckSelling(m, b, n + 1);
    }
  }

  lemma {:induction false} StuckBuying(m: Market, equityAtOpen: real, b: Book, n: nat)
    requires Fits(m, b) && n <= |m.opens| && BuyPass(m, equityAtOpen, b, n).None?
    ensures BuyPass(m, equityAtOpen, b, |m.opens|).None?
    decreases |m.opens| - n
  {
    if n < |m.opens| {
      StuckBuying(m, equityAtOpen, b, n + 1);
    }
  }
}
