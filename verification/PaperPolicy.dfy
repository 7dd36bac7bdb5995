/** The deterministic fill policy shared by the paper engine and both backtesters
    (apps/api/app/execution/paper_policy.py). */
module PaperPolicy {
  import opened Decimals

  datatype Side = Buy | Sell
  datatype Profile = Standard | PartialFill | NoLiquidity
  datatype Decision =
    | Rejected(quote: real, code: string)
    | Fill(whole: bool, quote: real, quantity: real, price: real, fee: real)

  const MIN_FEE: real := 0.01
  const FEE_RATE: real := 0.0002
  // half of the 10 bps spread plus 5 bps of slippage
  const ADVERSE_RATE: real := 0.001

  function FillPrice(side: Side, quote: real): real {
    Round8(quote * (if side.Buy? then 1.0 + ADVERSE_RATE else 1.0 - ADVERSE_RATE))
  }

  function Fee(price: real, quantity: real): real {
    Round8(Max(MIN_FEE, Times(price, quantity) * FEE_RATE))
  }

  function Evaluate(side: Side, quantity: real, quotePrice: real, profile: Profile): Decision {
    var asked := Trunc8(quantity);
    var quote := Trunc8(quotePrice);
    if asked <= 0.0 || quote <= 0.0 then Rejected(quote, "paper_input_below_precision")
    else if profile.NoLiquidity? then Rejected(quote, "paper_no_liquidity")
    else
      var filled := if profile.PartialFill? then Round8(asked / 2.0) else asked;
      if filled <= 0.0 then Rejected(quote, "paper_partial_fill_below_precision")
      else
        var price := FillPrice(side, quote);
        Fill(!profile.PartialFill?, quote, filled, price, Fee(price, filled))
  }

  lemma UnitsAtLeast(x: real, n: int)
    requires x == Units8(n) && x > 0.0
    ensures n >= 1 && x >= QUANTUM
  {}

  /** What every caller relies on: a fill is for at most what was asked, exactly for it under
      the standard profile, never at a better price than the truncated quote, never free of
      charge, and everything it states is storable at eight places. */
  lemma FillContract(side: Side, quantity: real, quotePrice: real, profile: Profile)
    requires Evaluate(side, quantity, quotePrice, profile).Fill?
    ensures var d := Evaluate(side, quantity, quotePrice, profile);
            && 0.0 < d.quote <= quotePrice && 0.0 < d.price && MIN_FEE <= d.fee
            && 0.0 < d.quantity <= Trunc8(quantity) <= quantity
            && (d.whole ==> d.quantity == Trunc8(quantity))
            && (!d.whole ==> d.quantity < Trunc8(quantity))
            && (d.whole <==> profile.Standard?)
            && (side.Buy? ==> d.quote <= d.price) && (side.Sell? ==> d.price <= d.quote)
            && OnGrid8(d.quantity) && OnGrid8(d.price) && OnGrid8(d.fee) && OnGrid8(d.quote)
  {
    var d := Evaluate(side, quantity, quotePrice, profile);
    RoundingLandsOnGrid(quotePrice);
    RoundingFixesGrid(d.quote);
    PriceIsAdverse(side, d.quote);
    FeeAtLeastMinimum(d.price, d.quantity);
    RoundingLandsOnGrid(quantity);
    RoundingLandsOnGrid(Trunc8(quantity) / 2.0);
    var n :| Trunc8(quantity) == Units8(n);
    UnitsAtLeast(Trunc8(quantity), n);
    if profile.PartialFill? {
      HalfIsLess(n);
    }
  }

  lemma HalfIsLess(n: int)
    requires n >= 1 && Round8(Units8(n) / 2.0) > 0.0
    ensures Round8(Units8(n) / 2.0) < Units8(n)
  {
    var h := HalfEven(Units8(n) / 2.0 * 100000000.0);
    assert Units8(n) / 2.0 * 100000000.0 == n as real / 2.0;
    assert h < n by {
      if n == 1 {
        assert (0.5 as real).Floor == 0;
      }
    }
  }

  lemma PriceIsAdverse(side: Side, quote: real)
    requires quote > 0.0 && OnGrid8(quote)
    ensures OnGrid8(FillPrice(side, quote)) && FillPrice(side, quote) > 0.0
    ensures side.Buy? ==> quote <= FillPrice(side, quote)
    ensures side.Sell? ==> FillPrice(side, quote) <= quote
  {
    hide Round8;
    var n :| quote == Units8(n);
    UnitsAtLeast(quote, n);
    var exact := quote * (if side.Buy? then 1.0 + ADVERSE_RATE else 1.0 - ADVERSE_RATE);
    RoundingLandsOnGrid(exact);
    RoundingFixesGrid(quote);
    if side.Buy? {
      Round8Monotone(quote, exact);
    } else {
      Round8Monotone(exact, quote);
    }
  }

  lemma FeeAtLeastMinimum(price: real, quantity: real)
    ensures MIN_FEE <= Fee(price, quantity) && OnGrid8(Fee(price, quantity))
  {
    var exact := Max(MIN_FEE, Times(price, quantity) * FEE_RATE);
    RoundingLandsOnGrid(exact);
    assert MIN_FEE == Units8(1000000);
    RoundingFixesGrid(MIN_FEE);
    Round8Monotone(MIN_FEE, exact);
  }

  /** What the policy does with any request: it refuses one that vanishes at eight places, or has
      no liquidity, or half of which vanishes; it fills the whole or half of any other, at ten
      basis points from the truncated quote and a fee of two, at least a cent. */
  lemma PolicyDecides(side: Side, quantity: real, quotePrice: real, profile: Profile)
    ensures var d := Evaluate(side, quantity, quotePrice, profile);
            var asked, quote := Trunc8(quantity), Trunc8(quotePrice);
            var half := Round8(asked / 2.0);
            && (d.Fill? <==> asked > 0.0 && quote > 0.0 && !profile.NoLiquidity? && (profile.PartialFill? ==> half > 0.0))
            && (d.Rejected? ==>
                  && d.quote == quote
                  && (d.code == "paper_input_below_precision" <==> asked <= 0.0 || quote <= 0.0)
                  && (d.code == "paper_no_liquidity" <==> asked > 0.0 && quote > 0.0 && profile.NoLiquidity?))
            && (d.Fill? ==>
                  && d.quote == quote
                  && d.quantity == (if profile.PartialFill? then half else asked)
                  && d.price == Round8(if side.Buy? then quote * 1.001 else quote * 0.999)
                  && d.fee == Round8(Max(0.01, Times(d.price, d.quantity) * 0.0002)))
  {
    hide Round8, Trunc8, Times;
  }
}
