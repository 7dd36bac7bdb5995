/** Backtests that end in debt: an entry that uses all cash, and a gap through the stop that
    brings in less than the fee. They are the cases that the exact conditions on cash and on
    the drawdown tracker leave out. */
module OverdrawnRun {
  import opened Decimals
  import opened Outcomes
  import opened PaperPolicy
  import opened DataContract
  import opened Backtest
  import opened BacktestProofs
  import opened Metrics

  /** What one such run is made of: the commission setting and the fee it comes to, the shares
      bought, and the price the last bar gaps to with what a share then brings in. */
  datatype Case = Case(commission: Option<real>, fee: real, shares: real, gap: real, received: real)

  predicate CaseOk(k: Case) {
    && k.fee >= 0.0 && 0.0 < k.shares <= 1.0 && 0.0 < k.gap <= 5.0
    && Trunc8(k.shares) == k.shares && Trunc8(k.gap) == k.gap && FillPrice(Sell, k.gap) == k.received
    && (k.commission == Some(k.fee)
        || (k.commission.None? && Fee(10.01, k.shares) == k.fee && Fee(k.received, k.shares) == k.fee))
  }

  const Sessions := Calendar(
    time => Some(if time < 1000 then 0 else 1), session => 1000 * session, session => 300 + 9000 * session,
    session => false, session => session - 1, time => time)

  function Capital(k: Case): real { Times(10.01, k.shares) + k.fee }

  /** Buys on the first bar of a session, with a stop at 5. */
  function C(k: Case): Config {
    Config(
      (view: View) => if |view.session| == 1 then Some(Signal(Buy, 1000.0, 5.0, 10000.0, k.shares)) else None,
      Sessions, Capital(k), 100.0, 100.0, true, 100, k.commission, None, None, 5, 1)
  }

  function Bars(k: Case): seq<Bar> {
    [Bar(10.0, 10.0, 10.0, 10.0, 0.0), Bar(10.0, 10.0, 10.0, 10.0, 0.0),
     Bar(10.0, 100.0, 10.0, 100.0, 0.0), Bar(k.gap, k.gap, k.gap, k.gap, 0.0)]
  }

  const Times4: seq<Option<int>> := [Some(0), Some(1000), Some(1300), Some(1600)]

  function Ticks(k: Case): seq<Tick> {
    [Tick(Bars(k)[0], 0, 0), Tick(Bars(k)[1], 1000, 1), Tick(Bars(k)[2], 1300, 1), Tick(Bars(k)[3], 1600, 1)]
  }

  function Bought(k: Case): SimulatedFill {
    SimulatedFill(10.01, k.shares, Round2(Times(Abs(10.01 - 10.0), k.shares)), k.fee)
  }

  function SoldAtGap(k: Case): SimulatedFill {
    SimulatedFill(k.received, k.shares, Round2(Times(Abs(k.received - k.gap), k.shares)), k.fee)
  }

  lemma OnGridAt(n: int)
    ensures Round8(Units8(n)) == Units8(n) && Trunc8(Units8(n)) == Units8(n)
  {
    RoundingFixesGrid(Units8(n));
  }

  lemma Fills(k: Case)
    requires CaseOk(k)
    ensures Simulate(C(k), Buy, k.shares, 10.0) == Ok(Bought(k))
    ensures Simulate(C(k), Sell, k.shares, k.gap) == Ok(SoldAtGap(k))
  {
    hide Round8, Trunc8, Fee, Round2, Times;
    OnGridAt(1000000000);
    OnGridAt(1001000000);
  }

  lemma EntryUsesAllCash(k: Case, order: Order)
    requires CaseOk(k) && order.quantity == k.shares
    ensures CapEntryFill(C(k), order, 10.0, Capital(k), Capital(k), 5.0) == Ok(Some(Bought(k)))
  {
    hide Simulate, Trunc8, Fee, FillPrice, Round2;
    Fills(k);
    SharesFit(k);
  }

  lemma SharesFit(k: Case)
    requires CaseOk(k)
    ensures CappedQuantity(C(k), Bought(k), Capital(k), 5.0) == k.shares
  {
    hide Trunc8, Fee, FillPrice, Round2;
    assert Capital(k) * 100.0 / 100.0 == Capital(k) >= 10.01 * k.shares;
    assert Capital(k) / 10.01 >= k.shares && Capital(k) / 5.01 >= k.shares;
  }

  function S1(k: Case): State {
    Start(C(k)).(history := Ticks(k)[..1], current := Some(0), closes := map[0 := 10.0])
  }

  function S2(k: Case): State {
    S1(k).(pending := [Order(k.shares, 1)], levels := Levels(5.0, 10000.0, 1995.0), history := Ticks(k)[..2],
           session := Ticks(k)[1..2], current := Some(1), previousClose := Some(10.0), eligible := true,
           traded := [1], curve := [Point(1, Capital(k), Capital(k))])
  }

  function S3(k: Case): State {
    S2(k).(cash := 0.0, position := Position(k.shares, 10.01, 2, k.fee, Bought(k).slippage, false), pending := [],
           entries := [Entry(Order(k.shares, 1), 2, 10.01, k.shares, k.fee, Bought(k).slippage,
                             Capital(k), Capital(k), 5.0)],
           commission := k.fee, slippage := Bought(k).slippage, history := Ticks(k)[..3], session := Ticks(k)[1..3],
           traded := [1, 2], curve := S2(k).curve + [Point(2, Times(k.shares, 100.0), 0.0)])
  }

  function Left(k: Case): real { Times(k.received, k.shares) - k.fee }

  function S4(k: Case): State {
    S3(k).(cash := Left(k), position := Flat.(price := 10.01, index := 2), levels := Levels(0.0, 0.0, 0.0),
           capital := Left(k),
           trades := [Trade(10.01, k.received, k.shares, Times(k.received - 10.01, k.shares) - (k.fee + k.fee), 2, 3,
                            StopLoss, Bought(k).slippage + SoldAtGap(k).slippage, k.fee + k.fee)],
           sales := [Sale(0.0, Times(k.received, k.shares), k.fee)],
           commission := k.fee + k.fee, slippage := Bought(k).slippage + SoldAtGap(k).slippage,
           history := Ticks(k), session := Ticks(k)[1..4], traded := [1, 2, 3],
           curve := S3(k).curve + [Point(3, Left(k), Left(k))])
  }

  lemma FirstBar(k: Case)
    requires CaseOk(k)
    ensures Step(C(k), Start(C(k)), 0, Ticks(k)[0]) == Ok(S1(k))
  {
    hide Trunc8, FillPrice, Fee, Round2;
    assert [] + [Ticks(k)[0]] == Ticks(k)[..1];
  }

  lemma SecondBar(k: Case)
    requires CaseOk(k)
    ensures Step(C(k), S1(k), 1, Ticks(k)[1]) == Ok(S2(k))
  {
    hide Trunc8, FillPrice, Fee, Round2, Times;
    var t := Ticks(k)[1];
    assert Ticks(k)[..1] + [t] == Ticks(k)[..2] && [] + [t] == Ticks(k)[1..2];
    var seen := SeeBar(C(k), S1(k), t);
    assert seen == S1(k).(history := Ticks(k)[..2], current := Some(1), previousClose := Some(10.0), eligible := true);
    var traded := seen.(traded := [1], session := Ticks(k)[1..2]);
    assert AskStrategy(C(k), traded, 1, t)
        == Ok(traded.(pending := [Order(k.shares, 1)], levels := Levels(5.0, 10000.0, 1995.0)));
    NothingHeld(10.0);
    assert [] + [1] == [1] && [] + [Point(1, Capital(k), Capital(k))] == S2(k).curve;
  }

  function Seen3(k: Case): State {
    S2(k).(history := Ticks(k)[..3], traded := [1, 2], session := Ticks(k)[1..3])
  }

  function Filled3(k: Case): State { S3(k).(curve := S2(k).curve) }

  lemma OrderFills(k: Case)
    requires CaseOk(k)
    ensures ProcessPending(C(k), Seen3(k), 2, Ticks(k)[2]) == Ok(Filled3(k))
  {
    hide CapEntryFill, FillOrder, Trunc8, FillPrice, Fee, Round2, Times;
    var flat := Seen3(k).(pending := []);
    var order := Order(k.shares, 1);
    EntryUsesAllCash(k, order);
    OneOrder(C(k), flat, 2, Ticks(k)[2], order);
    OrderWrites(k, flat, order);
    assert [] + [Entry(order, 2, 10.01, k.shares, k.fee, Bought(k).slippage, Capital(k), Capital(k), 5.0)] == S3(k).entries;
  }

  lemma OrderWrites(k: Case, s: State, order: Order)
    requires CaseOk(k) && s.position == Flat && s.cash == Capital(k) && s.levels.stop == 5.0 && order.quantity == k.shares
    ensures FillOrder(C(k), s, 2, Ticks(k)[2], order)
         == Ok(s.(cash := 0.0, position := Position(k.shares, 10.01, 2, k.fee, Bought(k).slippage, false),
                  entries := s.entries + [Entry(order, 2, 10.01, k.shares, k.fee, Bought(k).slippage,
                                                Capital(k), Capital(k), 5.0)],
                  commission := s.commission + k.fee, slippage := s.slippage + Bought(k).slippage))
  {
    hide CapEntryFill, Trunc8, FillPrice, Fee, Round2, Times;
    EntryUsesAllCash(k, order);
    NothingHeld(10.0);
  }

  lemma ThirdBar(k: Case)
    requires CaseOk(k)
    ensures Step(C(k), S2(k), 2, Ticks(k)[2]) == Ok(S3(k))
  {
    hide ProcessPending, Trunc8, FillPrice, Fee, Round2, Times;
    var t := Ticks(k)[2];
    assert Ticks(k)[..2] + [t] == Ticks(k)[..3] && Ticks(k)[1..2] + [t] == Ticks(k)[1..3];
    assert S2(k).traded + [2] == [1, 2];
    var seen := SeeBar(C(k), S2(k), t);
    assert seen.(traded := seen.traded + [2], session := seen.session + [t]) == Seen3(k);
    OrderFills(k);
    assert CheckExit(C(k), Filled3(k), 2, t) == Ok(Filled3(k));
  }

  function Seen4(k: Case): State {
    S3(k).(history := Ticks(k), traded := [1, 2, 3], session := Ticks(k)[1..4])
  }

  lemma StoppedOut(k: Case)
    requires CaseOk(k)
    ensures CheckExit(C(k), Seen4(k), 3, Ticks(k)[3]) == Ok(S4(k).(curve := S3(k).curve))
  {
    hide Simulate, SellPart, Trunc8, FillPrice, Fee, Round2, Times;
    Fills(k);
    assert ExitOf(C(k), Seen4(k), 3, Bars(k)[3]) == Exit(StopLoss, k.gap, k.shares, false);
    SaleWrites(C(k), Seen4(k), 3, StopLoss, k.shares, SoldAtGap(k));
    WholeShare(k.fee, k.shares);
    WholeShare(Bought(k).slippage, k.shares);
    NothingHeld(k.gap);
    SoldOut(k);
    var sold := SellPart(C(k), Seen4(k), 3, StopLoss, k.shares, SoldAtGap(k));
    assert [] + [S4(k).sales[0]] == S4(k).sales && [] + [S4(k).trades[0]] == S4(k).trades;
    assert sold.trades == S4(k).trades;
    assert sold.sales == S4(k).sales;
    assert sold == S4(k).(capital := sold.capital, curve := S3(k).curve);
  }

  lemma SoldOut(k: Case)
    requires CaseOk(k)
    ensures var s := SellPart(C(k), Seen4(k), 3, StopLoss, k.shares, SoldAtGap(k));
            s.position == Flat.(price := 10.01, index := 2) && s.levels == Levels(0.0, 0.0, 0.0)
  {
    hide Trunc8, FillPrice, Fee, Round2, Times;
  }

  lemma FourthBar(k: Case)
    requires CaseOk(k)
    ensures Step(C(k), S3(k), 3, Ticks(k)[3]) == Ok(S4(k))
  {
    hide CheckExit, Trunc8, FillPrice, Fee, Round2, Times;
    var t := Ticks(k)[3];
    assert Ticks(k)[..3] + [t] == Ticks(k) && Ticks(k)[1..3] + [t] == Ticks(k)[1..4];
    assert S3(k).traded + [3] == [1, 2, 3];
    var seen := SeeBar(C(k), S3(k), t);
    assert seen.(traded := seen.traded + [3], session := seen.session + [t]) == Seen4(k);
    StoppedOut(k);
    NothingHeld(k.gap);
  }

  /** Such a run is accepted, and ends with what its one sale brought in less the fee. */
  lemma EndsWithWhatIsLeft(k: Case)
    requires CaseOk(k)
    ensures ConfigOk(C(k)) && SoundSeries(Bars(k), Times4) && TicksOf(C(k), Bars(k), Times4, Ticks(k))
    ensures Simulated(C(k), Ticks(k)) == Ok(S4(k)) && S4(k).cash == Left(k)
  {
    hide Step, Trunc8, FillPrice, Fee, Round2;
    FirstBar(k);
    SecondBar(k);
    ThirdBar(k);
    FourthBar(k);
    assert After(C(k), Ticks(k), 1) == Ok(S1(k));
    assert After(C(k), Ticks(k), 2) == Ok(S2(k));
    assert After(C(k), Ticks(k), 3) == Ok(S3(k));
  }

  // ---------------------------------------------------------------- which commissions can overdraw

  /** One quantum of shares, sold at one quantum of price. */
  function Least(commission: Option<real>, fee: real): Case {
    Case(commission, fee, QUANTUM, QUANTUM, QUANTUM)
  }

  lemma LeastIsOk(commission: Option<real>, fee: real)
    requires fee >= 0.0 && (commission == Some(fee) || (commission.None? && fee == MIN_FEE))
    ensures CaseOk(Least(commission, fee)) && Left(Least(commission, fee)) == LEAST_PROCEEDS - fee
  {
    OnGridAt(1);
    OnGridAt(1000000);
    assert (0.00000001 * 0.999 * 100000000.0).Floor == 0;
  }

  /** Some strategy and series end in debt at a flat commission exactly when it is more than the
      least a sale can bring in, 0.0000000000000001: none does at a commission of zero, and some
      do at any commission worth the name. */
  lemma CommissionOverdrawsExactlyWhen(fee: real)
    requires fee >= 0.0
    ensures (exists c: Config, ticks: seq<Tick> ::
               ConfigOk(c) && c.commission == Some(fee) && Simulated(c, ticks).Ok? && Simulated(c, ticks).value.cash < 0.0)
            <==> fee > LEAST_PROCEEDS
  {
    hide Simulated, CaseOk, S4, Left;
    if fee > LEAST_PROCEEDS {
      var k := Least(Some(fee), fee);
      LeastIsOk(Some(fee), fee);
      EndsWithWhatIsLeft(k);
    } else {
      forall c: Config, ticks: seq<Tick> | ConfigOk(c) && c.commission == Some(fee) && Simulated(c, ticks).Ok?
        ensures Simulated(c, ticks).value.cash >= 0.0
      {
        SmallCommissionNeverOverdraws(c, ticks);
      }
    }
  }

  /** Under the policy's own fee, with no commission set, some do too. */
  lemma PolicyFeeOverdraws()
    ensures exists c: Config, ticks: seq<Tick> ::
              ConfigOk(c) && c.commission.None? && Simulated(c, ticks).Ok? && Simulated(c, ticks).value.cash < 0.0
  {
    hide Simulated, CaseOk, S4, Left;
    var k := Least(None, MIN_FEE);
    LeastIsOk(None, MIN_FEE);
    EndsWithWhatIsLeft(k);
    assert Simulated(C(k), Ticks(k)).value.cash < 0.0;
  }

  // ---------------------------------------------------------------- one of them in full

  /** A commission of 50, one share, and a gap to 1. */
  const Fifty := Case(Some(50.0), 50.0, 1.0, 1.0, 0.999)

  lemma FiftyIsOk()
    ensures CaseOk(Fifty)
  {
    OnGridAt(100000000);
    OnGridAt(99900000);
  }

  /** The run ends 49.001 in debt, because its one sale found no cash and brought in less than
      its fee. */
  lemma EndsInDebt()
    ensures ConfigOk(C(Fifty)) && SoundSeries(Bars(Fifty), Times4) && TicksOf(C(Fifty), Bars(Fifty), Times4, Ticks(Fifty))
    ensures Simulated(C(Fifty), Ticks(Fifty)) == Ok(S4(Fifty))
    ensures S4(Fifty).cash == -49.001 && !Solvent(S4(Fifty))
  {
    hide Simulated, CaseOk;
    FiftyIsOk();
    EndsWithWhatIsLeft(Fifty);
    assert S4(Fifty).sales[0] in S4(Fifty).sales;
  }

  /** On its equity curve the tracker reports the fall from the peak, 149.001 percent; the fall
      from the first point is over 181. */
  lemma TrackerMissesTheFall(deepest: real)
    requires IsTracked([60.01, 100.0, -49.001], deepest)
    ensures |S4(Fifty).curve| == 3
    ensures forall k :: 0 <= k < 3 ==> S4(Fifty).curve[k].equity == [60.01, 100.0, -49.001][k]
    ensures deepest == 149.001 && Drop(60.01, -49.001) > 181.0 && !NoneDeeper([60.01, 100.0, -49.001], deepest)
  {
    var equity := [60.01, 100.0, -49.001];
    assert IsPeak(equity, 1, 2) && Drop(equity[1], equity[2]) == 149.001;
    Quotient(109.011, 60.01, 109.011 / 60.01);
    assert Drop(equity[0], equity[2]) > 181.0;
  }
}
