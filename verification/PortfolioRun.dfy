/** The portfolio backtest loop (apps/api/app/backtest/portfolio_engine.py:460-471 and
    553-643): which sessions it rebalances on, and what it lets the strategy see. */
module PortfolioRun {
  import opened Decimals
  import opened Outcomes
  import opened Portfolio

  datatype Date = Date(year: int, month: int, day: int)
  datatype Frequency = Monthly | Quarterly | Annual | Unknown

  predicate Earlier(a: Date, b: Date) {
    a.year < b.year || (a.year == b.year && (a.month < b.month || (a.month == b.month && a.day < b.day)))
  }

  ghost predicate Calendar(dates: seq<Date>) {
    && (forall d <- dates :: 1 <= d.month <= 12)
    && forall i, j :: 0 <= i < j < |dates| ==> Earlier(dates[i], dates[j])
  }

  predicate RebalanceDue(previous: Option<Date>, current: Date, frequency: Frequency) {
    if previous.None? then true
    else
      var p := previous.value;
      match frequency
      case Monthly => (p.year, p.month) != (current.year, current.month)
      case Quarterly => (p.year, (p.month - 1) / 3) != (current.year, (current.month - 1) / 3)
      case Annual => p.year != current.year
      case Unknown => false
  }

  datatype DayBar = DayBar(open: real, close: real)

  /** One list of bars per ticker, aligned with the sessions. */
  type History = seq<seq<DayBar>>

  /** What the strategy is shown on session k: the bars before it. */
  function Observed(history: History, k: nat): (r: History)
    requires forall bars <- history :: k <= |bars|
    ensures |r| == |history|
  {
    seq(|history|, i requires 0 <= i < |history| => history[i][..k])
  }

  datatype Config = Config(
    strategy: History -> seq<real>, frequency: Frequency, minHistory: nat, capital: real, costs: Costs)

  function Sum(xs: seq<real>): real {
    if xs == [] then 0.0 else Sum(xs[..|xs| - 1]) + xs[|xs| - 1]
  }

  /** The strategy's weights for the tickers, scaled down when they promise more than all. */
  function Weights(c: Config, observed: History): (r: seq<real>)
    ensures |r| == |observed|
  {
    var raw := c.strategy(observed);
    var total := Sum(raw);
    seq(|observed|, i requires 0 <= i < |observed| =>
      if i >= |raw| then 0.0 else if total > 1.0001 then raw[i] / total else raw[i])
  }

  datatype Point = Point(equity: real, cash: real)

  datatype State = State(
    cash: real, holdings: seq<nat>, previous: Option<Date>, rebalancedAt: seq<nat>, trades: seq<Trade>, curve: seq<Point>)

  function Opens(history: History, k: nat): (r: seq<real>)
    requires forall bars <- history :: k < |bars|
    ensures |r| == |history|
  {
    seq(|history|, i requires 0 <= i < |history| => history[i][k].open)
  }

  function Closes(history: History, k: nat): (r: seq<real>)
    requires forall bars <- history :: k < |bars|
    ensures |r| == |history|
  {
    seq(|history|, i requires 0 <= i < |history| => history[i][k].close)
  }

  predicate Due(c: Config, dates: seq<Date>, previous: Option<Date>, k: nat)
    requires k < |dates|
  {
    k >= c.minHistory && RebalanceDue(previous, dates[k], c.frequency)
  }

  function Rebalance(c: Config, date: Date, history: History, k: nat, s: State): Option<State>
    requires (forall bars <- history :: k < |bars|) && |s.holdings| == |history|
  {
    var m := Market(Opens(history, k), Weights(c, Observed(history, k)), c.costs);
    var b := Rebalanced(m, Book(s.cash, s.holdings, []));
    if b.None? then None
    else Some(s.(cash := Round2(b.value.cash), holdings := b.value.holdings, previous := Some(date),
                 rebalancedAt := s.rebalancedAt + [k], trades := s.trades + b.value.trades))
  }

  function Marked(history: History, k: nat, s: State): State
    requires (forall bars <- history :: k < |bars|) && |s.holdings| == |history|
  {
    var equity := s.cash + Held(s.holdings, Closes(history, k));
    s.(curve := s.curve + [Point(Round2(equity), Round2(s.cash))])
  }

  function Start(c: Config, history: History): State {
    State(c.capital, seq(|history|, i => 0), None, [], [], [])
  }

  /** One session: rebalance if it is due, then mark to the close. */
  function Session(c: Config, dates: seq<Date>, history: History, k: nat, s: State): (r: Option<State>)
    requires k < |dates| && (forall bars <- history :: |bars| == |dates|) && |s.holdings| == |history|
    ensures r.Some? ==>
              && |r.value.holdings| == |history| && |r.value.curve| == |s.curve| + 1
              && (if Due(c, dates, s.previous, k)
                  then r.value.rebalancedAt == s.rebalancedAt + [k] && r.value.previous == Some(dates[k])
                  else r.value.rebalancedAt == s.rebalancedAt && r.value.previous == s.previous)
  {
    var after := if Due(c, dates, s.previous, k) then Rebalance(c, dates[k], history, k, s) else Some(s);
    if after.None? then None else Some(Marked(history, k, after.value))
  }

  /** The state after the first k sessions, None when a fill was refused. */
  function After(c: Config, dates: seq<Date>, history: History, k: nat): (r: Option<State>)
    requires k <= |dates| && forall bars <- history :: |bars| == |dates|
    ensures r.Some? ==> |r.value.holdings| == |history| && |r.value.curve| == k
  {
    if k == 0 then Some(Start(c, history))
    else
      var before := After(c, dates, history, k - 1);
      if before.None? then None else Session(c, dates, history, k - 1, before.value)
  }

  method MarkToClose(cash: real, holdings: seq<nat>, closes: seq<real>) returns (p: Point)
    requires |holdings| == |closes|
    ensures p == Point(Round2(cash + Held(holdings, closes)), Round2(cash))
  {
    hide Value, Round2;
    var equity := cash;
    for i := 0 to |holdings|
      invariant equity == cash + Held(holdings[..i], closes[..i])
    {
      equity := equity + Value(holdings[i], closes[i]);
      assert holdings[..i + 1][..i] == holdings[..i] && closes[..i + 1][..i] == closes[..i];
    }
    assert holdings[..|holdings|] == holdings && closes[..|holdings|] == closes;
    p := Point(Round2(equity), Round2(cash));
  }

  method RunSession(c: Config, dates: seq<Date>, history: History, index: nat, s: State) returns (r: Option<State>)
    requires index < |dates| && (forall bars <- history :: |bars| == |dates|) && |s.holdings| == |history|
    ensures r == Session(c, dates, history, index, s)
  {
    hide Round2, Held, Rebalanced, Weights, RebalanceDue, Observed, Opens, Closes;
    var cash, holdings, previous, rebalancedAt, trades := s.cash, s.holdings, s.previous, s.rebalancedAt, s.trades;
    if index >= c.minHistory && RebalanceDue(previous, dates[index], c.frequency) {
      var m := Market(Opens(history, index), Weights(c, Observed(history, index)), c.costs);
      var traded := RebalancePortfolio(m, cash, holdings);
      if traded.Refused? {
        return None;
      }
      cash, holdings, trades := traded.value.0, traded.value.1, trades + traded.value.2;
      previous := Some(dates[index]);
      rebalancedAt := rebalancedAt + [index];
    }
    var point := MarkToClose(cash, holdings, Closes(history, index));
    r := Some(State(cash, holdings, previous, rebalancedAt, trades, s.curve + [point]));
  }

  method Run(c: Config, dates: seq<Date>, history: History) returns (r: Result<State>)
    requires forall bars <- history :: |bars| == |dates|
    ensures |dates| <= c.minHistory ==> r == Refused("need more history")
    ensures |dates| > c.minHistory ==>
              var spec := After(c, dates, history, |dates|);
              r == if spec.None? then Refused("policy rejected a fill") else Ok(spec.value)
  {
    hide Session;
    if |dates| <= c.minHistory {
      return Refused("need more history");
    }
    var s := Start(c, history);
    for index := 0 to |dates|
      invariant After(c, dates, history, index) == Some(s)
    {
      var next := RunSession(c, dates, history, index, s);
      if next.None? {
        Stuck(c, dates, history, index + 1);
        return Refused("policy rejected a fill");
      }
      s := next.value;
    }
    r := Ok(s);
  }

  lemma {:induction false} Stuck(c: Config, dates: seq<Date>, history: History, k: nat)
    requires k <= |dates| && forall bars <- history :: |bars| == |dates|
    requires After(c, dates, history, k).None?
    ensures After(c, dates, history, |dates|).None?
    decreases |dates| - k
  {
    if k < |dates| {
      Stuck(c, dates, history, k + 1);
    }
  }

  // ---------------------------------------------------------------- the calendar

  /** The month, quarter or year a date falls in. */
  function Period(d: Date, frequency: Frequency): int {
    match frequency
    case Monthly => d.year * 12 + (d.month - 1)
    case Quarterly => d.year * 4 + (d.month - 1) / 3
    case Annual => d.year
    case Unknown => 0
  }

  lemma DueIsNewPeriod(p: Date, d: Date, frequency: Frequency)
    requires 1 <= p.month <= 12 && 1 <= d.month <= 12
    ensures RebalanceDue(Some(p), d, frequency) <==> Period(p, frequency) != Period(d, frequency)
  {}

  lemma PeriodsRunForward(a: Date, b: Date, frequency: Frequency)
    requires 1 <= a.month <= 12 && 1 <= b.month <= 12 && (a == b || Earlier(a, b))
    ensures Period(a, frequency) <= Period(b, frequency)
  {}

  /** The first session a period is tradable on. */
  ghost predicate OpensPeriod(c: Config, dates: seq<Date>, k: nat) {
    && c.minHistory <= k < |dates|
    && forall j :: c.minHistory <= j < k ==> Period(dates[j], c.frequency) != Period(dates[k], c.frequency)
  }

  ghost predicate OnSchedule(c: Config, dates: seq<Date>, s: State, k: nat)
    requires k <= |dates|
  {
    && (forall j: nat :: j in s.rebalancedAt <==> j < k && OpensPeriod(c, dates, j))
    && (s.previous.None? <==> k <= c.minHistory)
    && (s.previous.Some? ==> k > 0 && Period(s.previous.value, c.frequency) == Period(dates[k - 1], c.frequency)
                             && 1 <= s.previous.value.month <= 12)
  }

  lemma OpensPeriodWhenItChanges(c: Config, dates: seq<Date>, k: nat)
    requires Calendar(dates) && c.minHistory <= k < |dates|
    ensures OpensPeriod(c, dates, k) <==>
              k == c.minHistory || Period(dates[k - 1], c.frequency) != Period(dates[k], c.frequency)
  {
    hide Period;
    forall j | c.minHistory <= j < k
      ensures Period(dates[j], c.frequency) <= Period(dates[k - 1], c.frequency) <= Period(dates[k], c.frequency)
    {
      PeriodsRunForward(dates[j], dates[k - 1], c.frequency);
      PeriodsRunForward(dates[k - 1], dates[k], c.frequency);
    }
  }

  lemma SessionStaysOnSchedule(c: Config, dates: seq<Date>, s: State, s': State, k: nat)
    requires Calendar(dates) && k < |dates| && OnSchedule(c, dates, s, k)
    requires if Due(c, dates, s.previous, k)
             then s'.rebalancedAt == s.rebalancedAt + [k] && s'.previous == Some(dates[k])
             else s'.rebalancedAt == s.rebalancedAt && s'.previous == s.previous
    ensures OnSchedule(c, dates, s', k + 1)
  {
    hide Period, RebalanceDue, Calendar, OpensPeriod;
    var d := dates[k];
    assert d in dates;
    MonthsAreMonths(dates, d);
    if k < c.minHistory {
      NotYetOpen(c, dates, k);
    } else {
      OpensPeriodWhenItChanges(c, dates, k);
      if s.previous.Some? {
        DueIsNewPeriod(s.previous.value, d, c.frequency);
      } else {
        DueAtFirst(d, c.frequency);
      }
    }
    assert forall j: nat :: j in s.rebalancedAt + [k] <==> j in s.rebalancedAt || j == k;
  }

  lemma {:induction false} StaysOnSchedule(c: Config, dates: seq<Date>, history: History, k: nat)
    requires Calendar(dates) && k <= |dates| && forall bars <- history :: |bars| == |dates|
    requires After(c, dates, history, k).Some?
    ensures OnSchedule(c, dates, After(c, dates, history, k).value, k)
  {
    hide Session, Due, Calendar, OpensPeriod, Period;
    if k > 0 {
      StaysOnSchedule(c, dates, history, k - 1);
      SessionStaysOnSchedule(c, dates, After(c, dates, history, k - 1).value, After(c, dates, history, k).value, k - 1);
    }
  }

  lemma MonthsAreMonths(dates: seq<Date>, d: Date)
    requires Calendar(dates) && d in dates
    ensures 1 <= d.month <= 12
  {}

  lemma DueAtFirst(d: Date, frequency: Frequency)
    ensures RebalanceDue(None, d, frequency)
  {}

  lemma NotYetOpen(c: Config, dates: seq<Date>, k: nat)
    requires k < c.minHistory
    ensures !OpensPeriod(c, dates, k)
  {}

  // ---------------------------------------------------------------- main results

  lemma {:induction false} SumIsPlain(a: seq<real>, b: seq<real>, x: real)
    ensures Sum(a + b) == Sum(a) + Sum(b) && Sum([x]) == x
  {
    assert [x][..0] == [];
    if b == [] {
      assert a + b == a;
    } else {
      var n := |b| - 1;
      assert (a + b)[..|a + b| - 1] == a + b[..n];
      SumIsPlain(a, b[..n], x);
    }
  }

  /** Each figure is so many parts of a total. */
  ghost predicate AreShares(raw: seq<real>, shares: seq<real>, total: real) {
    |raw| == |shares| && forall i :: 0 <= i < |raw| ==> Times(shares[i], total) == raw[i]
  }

  lemma {:induction false} SumOfShares(raw: seq<real>, shares: seq<real>, total: real)
    requires AreShares(raw, shares, total)
    ensures Times(Sum(shares), total) == Sum(raw)
  {
    hide Times;
    if raw != [] {
      var n := |raw| - 1;
      SumOfShares(raw[..n], shares[..n], total);
      TimesSplits(Sum(shares[..n]), shares[n], total);
    } else {
      TimesSplits(0.0, 0.0, total);
    }
  }

  lemma TimesSplits(a: real, b: real, total: real)
    ensures Times(a + b, total) == Times(a, total) + Times(b, total)
    ensures Times(0.0, total) == 0.0
  {}

  lemma {:induction false} SumOfNothing(zeros: seq<real>)
    requires forall i :: 0 <= i < |zeros| ==> zeros[i] == 0.0
    ensures Sum(zeros) == 0.0
  {
    if zeros != [] {
      SumOfNothing(zeros[..|zeros| - 1]);
    }
  }

  /** Weights for n tickers are those the strategy answered, ticker by ticker, as they stand
      while they promise no more than all, and otherwise in the same proportions; a ticker it
      does not name gets nothing. */
  ghost predicate OwnWeights(raw: seq<real>, n: nat, weights: seq<real>) {
    && |weights| == n
    && forall i :: 0 <= i < n ==>
         if i >= |raw| then weights[i] == 0.0
         else if Sum(raw) <= 1.0001 then weights[i] == raw[i]
         else weights[i] * Sum(raw) == raw[i]
  }

  /** The run's weights are the strategy's own, and are all of one when it promised more. */
  lemma WeightsAreTheStrategysOwn(c: Config, observed: History)
    ensures var raw := c.strategy(observed);
            var weights := Weights(c, observed);
            && OwnWeights(raw, |observed|, weights)
            && (Sum(raw) > 1.0001 && |raw| <= |observed| ==> Sum(weights) == 1.0)
  {
    hide Sum;
    var raw := c.strategy(observed);
    var weights := Weights(c, observed);
    forall i | 0 <= i < |observed| && i < |raw| && Sum(raw) > 1.0001 ensures weights[i] * Sum(raw) == raw[i] {
      assert raw[i] / Sum(raw) * Sum(raw) == raw[i];
    }
    if Sum(raw) > 1.0001 && |raw| <= |observed| {
      assert AreShares(raw, weights[..|raw|], Sum(raw));
      ScaledToOne(raw, weights);
    }
  }

  lemma ScaledToOne(raw: seq<real>, weights: seq<real>)
    requires |raw| <= |weights| && Sum(raw) > 0.0
    requires AreShares(raw, weights[..|raw|], Sum(raw))
    requires forall i :: |raw| <= i < |weights| ==> weights[i] == 0.0
    ensures Sum(weights) == 1.0
  {
    hide Sum, AreShares, Times;
    var total, own, rest := Sum(raw), weights[..|raw|], weights[|raw|..];
    SumOfShares(raw, own, total);
    SumOfNothing(rest);
    assert weights == own + rest;
    SumIsPlain(own, rest, 0.0);
    OnlyOneKeeps(Sum(own), total);
  }

  lemma OnlyOneKeeps(x: real, total: real)
    requires total > 0.0 && Times(x, total) == total
    ensures x == 1.0
  {}

  /** Session k trades when it opens a period, and only then: cash, shares and trades become those
      of one rebalance at its opening prices, to the strategy's own weights on exactly the bars
      before it; in any other session all three stay as they were. Either way the session ends
      with one curve point, of its cash and of that cash with all shares at their closes. */
  ghost predicate TradesWhenItOpens(c: Config, dates: seq<Date>, history: History, k: nat)
    requires k < |dates| && (forall bars <- history :: |bars| == |dates|)
  {
    && After(c, dates, history, k).Some? && After(c, dates, history, k + 1).Some?
    && var s, s' := After(c, dates, history, k).value, After(c, dates, history, k + 1).value;
       && s'.curve == s.curve + [Point(Round2(s'.cash + Held(s'.holdings, Closes(history, k))), Round2(s'.cash))]
       && (forall i :: 0 <= i < |history| ==> Closes(history, k)[i] == history[i][k].close)
       && if OpensPeriod(c, dates, k) then
            var observed, opens := Observed(history, k), Opens(history, k);
            var weights := Weights(c, observed);
            var b := Rebalanced(Market(opens, weights, c.costs), Book(s.cash, s.holdings, []));
            && (forall i :: 0 <= i < |history| ==> observed[i] == history[i][..k] && opens[i] == history[i][k].open)
            && OwnWeights(c.strategy(observed), |history|, weights)
            && b.Some? && s'.cash == Round2(b.value.cash) && s'.holdings == b.value.holdings
            && s'.trades == s.trades + b.value.trades
          else s'.cash == s.cash && s'.holdings == s.holdings && s'.trades == s.trades
  }

  lemma DueWhenItOpens(c: Config, dates: seq<Date>, history: History, k: nat)
    requires Calendar(dates) && k < |dates| && forall bars <- history :: |bars| == |dates|
    requires After(c, dates, history, k).Some? && After(c, dates, history, k + 1).Some?
    ensures Due(c, dates, After(c, dates, history, k).value.previous, k) <==> OpensPeriod(c, dates, k)
  {
    hide Calendar, OpensPeriod, Period, Due, Rebalance;
    StaysOnSchedule(c, dates, history, k);
    StaysOnSchedule(c, dates, history, k + 1);
    var s, s' := After(c, dates, history, k).value, After(c, dates, history, k + 1).value;
    assert k in s'.rebalancedAt <==> OpensPeriod(c, dates, k);
    assert k !in s.rebalancedAt;
  }

  lemma SessionTradesWhenItOpens(c: Config, dates: seq<Date>, history: History, k: nat)
    requires Calendar(dates) && k < |dates| && forall bars <- history :: |bars| == |dates|
    requires After(c, dates, history, k).Some? && After(c, dates, history, k + 1).Some?
    ensures TradesWhenItOpens(c, dates, history, k)
  {
    hide Calendar, OpensPeriod, Due, Rebalanced, Weights, Held, Round2, OwnWeights;
    DueWhenItOpens(c, dates, history, k);
    WeightsAreTheStrategysOwn(c, Observed(history, k));
  }

  lemma TradesThroughout(c: Config, dates: seq<Date>, history: History, k: nat)
    requires Calendar(dates) && k <= |dates| && forall bars <- history :: |bars| == |dates|
    requires After(c, dates, history, k).Some?
    ensures forall j: nat :: j < k ==> TradesWhenItOpens(c, dates, history, j)
  {
    hide Calendar, After, TradesWhenItOpens;
    forall j: nat | j < k
      ensures TradesWhenItOpens(c, dates, history, j)
    {
      ResultsOnlyGrow(c, dates, history, j, k);
      ResultsOnlyGrow(c, dates, history, j + 1, k);
      SessionTradesWhenItOpens(c, dates, history, j);
    }
  }

  lemma StartsInCash(c: Config, dates: seq<Date>, history: History)
    requires forall bars <- history :: |bars| == |dates|
    ensures After(c, dates, history, 0) == Some(State(c.capital, seq(|history|, i => 0), None, [], [], []))
  {
    assert Start(c, history).holdings == seq(|history|, i => 0);
  }

  /** No period is opened by two sessions. */
  lemma OpenedOnce(c: Config, dates: seq<Date>, i: nat, j: nat)
    requires OpensPeriod(c, dates, i) && OpensPeriod(c, dates, j) && i != j
    ensures Period(dates[i], c.frequency) != Period(dates[j], c.frequency)
  {
    hide Period;
  }

  /** The run trades on exactly the first tradable session of each month, quarter or year, once
      in each and on no other session. */
  lemma RebalancesOncePerPeriod(c: Config, dates: seq<Date>, history: History, k: nat)
    requires Calendar(dates) && k <= |dates| && forall bars <- history :: |bars| == |dates|
    requires After(c, dates, history, k).Some?
    ensures forall j: nat :: j < k ==> TradesWhenItOpens(c, dates, history, j)
    ensures After(c, dates, history, 0) == Some(State(c.capital, seq(|history|, i => 0), None, [], [], []))
    ensures var at := After(c, dates, history, k).value.rebalancedAt;
            && (forall j: nat :: j in at <==> j < k && OpensPeriod(c, dates, j))
            && (forall i: nat, j: nat :: i in at && j in at && i != j ==>
                  Period(dates[i], c.frequency) != Period(dates[j], c.frequency))
            && (forall j: nat :: c.minHistory <= j < k ==>
                  exists i: nat :: i in at && i <= j && Period(dates[i], c.frequency) == Period(dates[j], c.frequency))
  {
    StartsInCash(c, dates, history);
    hide Period, Calendar, After, TradesWhenItOpens, OpensPeriod;
    TradesThroughout(c, dates, history, k);
    StaysOnSchedule(c, dates, history, k);
    var at := After(c, dates, history, k).value.rebalancedAt;
    forall j: nat | c.minHistory <= j < k
      ensures exists i: nat :: i in at && i <= j && Period(dates[i], c.frequency) == Period(dates[j], c.frequency)
    {
      FirstOfItsPeriod(c, dates, j);
      var i: nat :| i <= j && OpensPeriod(c, dates, i) && Period(dates[i], c.frequency) == Period(dates[j], c.frequency);
      assert i in at;
    }
    forall i: nat, j: nat | i in at && j in at && i != j
      ensures Period(dates[i], c.frequency) != Period(dates[j], c.frequency)
    {
      OpenedOnce(c, dates, i, j);
    }
  }

  lemma {:induction false} FirstOfItsPeriod(c: Config, dates: seq<Date>, j: nat)
    requires c.minHistory <= j < |dates|
    ensures exists i: nat :: i <= j && OpensPeriod(c, dates, i)
                             && Period(dates[i], c.frequency) == Period(dates[j], c.frequency)
  {
    hide Period;
    if !OpensPeriod(c, dates, j) {
      var i :| c.minHistory <= i < j && Period(dates[i], c.frequency) == Period(dates[j], c.frequency);
      FirstOfItsPeriod(c, dates, i);
    } else {
      assert j <= j;
    }
  }

  lemma SameSession(c: Config, dates: seq<Date>, dates': seq<Date>, h: History, h': History, k: nat, s: State)
    requires k < |dates| && k < |dates'| && |h| == |h'| == |s.holdings| && dates[k] == dates'[k]
    requires (forall bars <- h :: |bars| == |dates|) && (forall bars <- h' :: |bars| == |dates'|)
    requires Observed(h, k) == Observed(h', k) && Opens(h, k) == Opens(h', k) && Closes(h, k) == Closes(h', k)
    ensures Session(c, dates, h, k, s) == Session(c, dates', h', k, s)
  {
    hide Rebalanced, Weights, RebalanceDue, Held, Observed, Opens, Closes;
  }

  lemma SameBefore(h: History, h': History, k: nat)
    requires |h| == |h'| && (forall bars <- h :: k <= |bars|) && (forall bars <- h' :: k <= |bars|)
    requires forall i, j :: 0 <= i < |h| && 0 <= j < k ==> h[i][j] == h'[i][j]
    ensures Observed(h, k) == Observed(h', k)
  {
    forall i | 0 <= i < |h| ensures h[i][..k] == h'[i][..k] {
      assert h[i] in h && h'[i] in h';
    }
  }

  lemma SameOpens(h: History, h': History, k: nat)
    requires |h| == |h'| && (forall bars <- h :: k < |bars|) && (forall bars <- h' :: k < |bars|)
    requires forall i :: 0 <= i < |h| ==> h[i][k].open == h'[i][k].open
    ensures Opens(h, k) == Opens(h', k)
  {}

  lemma SameCloses(h: History, h': History, k: nat)
    requires |h| == |h'| && (forall bars <- h :: k < |bars|) && (forall bars <- h' :: k < |bars|)
    requires forall i :: 0 <= i < |h| ==> h[i][k].close == h'[i][k].close
    ensures Closes(h, k) == Closes(h', k)
  {}

  lemma SameTrading(c: Config, dates: seq<Date>, dates': seq<Date>, h: History, h': History, k: nat, s: State)
    requires k < |dates| && k < |dates'| && |h| == |h'| == |s.holdings| && dates[k] == dates'[k]
    requires (forall bars <- h :: |bars| == |dates|) && (forall bars <- h' :: |bars| == |dates'|)
    requires Observed(h, k) == Observed(h', k) && Opens(h, k) == Opens(h', k)
    ensures var r, r' := Session(c, dates, h, k, s), Session(c, dates', h', k, s);
            && (r.Some? <==> r'.Some?)
            && (r.Some? ==> r'.value == r.value.(curve := r'.value.curve))
  {
    hide Rebalance, RebalanceDue, Held, Round2, Observed, Opens, Closes;
    if Due(c, dates, s.previous, k) {
      SameRebalance(c, dates[k], h, h', k, s);
    }
  }

  lemma SameRebalance(c: Config, date: Date, h: History, h': History, k: nat, s: State)
    requires (forall bars <- h :: k < |bars|) && (forall bars <- h' :: k < |bars|) && |h| == |h'| == |s.holdings|
    requires Observed(h, k) == Observed(h', k) && Opens(h, k) == Opens(h', k)
    ensures Rebalance(c, date, h, k, s) == Rebalance(c, date, h', k, s)
  {
    hide Rebalanced, Weights, Round2, Observed, Opens;
  }

  /** The state after k sessions depends on the first k sessions alone. */
  lemma {:induction false} SamePast(c: Config, dates: seq<Date>, dates': seq<Date>, h: History, h': History, k: nat)
    requires k <= |dates| && k <= |dates'| && |h| == |h'|
    requires (forall bars <- h :: |bars| == |dates|) && (forall bars <- h' :: |bars| == |dates'|)
    requires forall j :: 0 <= j < k ==> dates[j] == dates'[j]
    requires forall i, j :: 0 <= i < |h| && 0 <= j < k ==> h[i][j] == h'[i][j]
    ensures After(c, dates, h, k) == After(c, dates', h', k)
  {
    hide Session, Observed, Opens, Closes;
    if k > 0 {
      SamePast(c, dates, dates', h, h', k - 1);
      if After(c, dates, h, k - 1).Some? {
        SameBefore(h, h', k - 1);
        SameOpens(h, h', k - 1);
        SameCloses(h, h', k - 1);
        SameSession(c, dates, dates', h, h', k - 1, After(c, dates, h, k - 1).value);
      }
    }
  }

  /** No look-ahead: what session k trades is settled by the bars before it and its own opening
      prices. Two runs that agree on those, and on the dates so far, hold the same cash and
      shares, have made the same trades and have rebalanced on the same sessions once session
      k is over, however its highs, lows and closes and all later bars differ. */
  lemma NoLookAhead(c: Config, dates: seq<Date>, dates': seq<Date>, h: History, h': History, k: nat)
    requires k < |dates| && k < |dates'| && |h| == |h'|
    requires (forall bars <- h :: |bars| == |dates|) && (forall bars <- h' :: |bars| == |dates'|)
    requires forall j :: 0 <= j <= k ==> dates[j] == dates'[j]
    requires forall i, j :: 0 <= i < |h| && 0 <= j < k ==> h[i][j] == h'[i][j]
    requires forall i :: 0 <= i < |h| ==> h[i][k].open == h'[i][k].open
    ensures var r, r' := After(c, dates, h, k + 1), After(c, dates', h', k + 1);
            && (r.Some? <==> r'.Some?)
            && (r.Some? ==> r'.value == r.value.(curve := r'.value.curve))
  {
    hide Session, Observed, Opens, Closes;
    SamePast(c, dates, dates', h, h', k);
    SameBefore(h, h', k);
    SameOpens(h, h', k);
    if After(c, dates, h, k).Some? {
      SameTrading(c, dates, dates', h, h', k, After(c, dates, h, k).value);
    }
  }

  /** Later sessions only add: what was traded, rebalanced and marked by session k stands in
      the finished run. */
  lemma {:induction false} ResultsOnlyGrow(c: Config, dates: seq<Date>, h: History, k: nat, n: nat)
    requires k <= n <= |dates| && (forall bars <- h :: |bars| == |dates|) && After(c, dates, h, n).Some?
    ensures After(c, dates, h, k).Some?
    ensures var s, s' := After(c, dates, h, k).value, After(c, dates, h, n).value;
            s.trades <= s'.trades && s.rebalancedAt <= s'.rebalancedAt && s.curve <= s'.curve
  {
    hide Rebalanced, Weights, RebalanceDue, Held, Round2, Observed, Opens, Closes;
    if k < n {
      ResultsOnlyGrow(c, dates, h, k, n - 1);
    }
  }
}
