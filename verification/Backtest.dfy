/** The single-symbol event-driven backtester (apps/api/app/backtest/engine.py:346-967): one
    pass over the bars that fills yesterday's order at the open, exits an open position on
    stop, target, half target or age, asks the strategy for an entry when flat, and marks the
    account. */
module Backtest {
  import opened Decimals
  import opened Outcomes
  import opened PaperPolicy
  import opened DataContract

  // ---------------------------------------------------------------- inputs

  /** The exchange calendar; a session is named by its date. */
  datatype Calendar = Calendar(
    sessionAt: int -> Option<int>, openOf: int -> int, closeOf: int -> int,
    earlyClose: int -> bool, previous: int -> int, clock: int -> int)

  datatype Tick = Tick(bar: Bar, time: int, session: int)

  datatype Signal = Signal(side: Side, entry: real, stop: real, takeProfit: real, quantity: real)

  /** Everything a strategy is shown. */
  datatype View = View(
    session: seq<(Bar, int)>, history: seq<(Bar, int)>, accountValue: real, availableCash: real,
    clock: int, previousClose: real)

  datatype Config = Config(
    strategy: View -> Option<Signal>, calendar: Calendar, capital: real, riskPct: real, maxPositionPct: real,
    stopRequired: bool, maxHoldingBars: int, commission: Option<real>,
    startDate: Option<int>, endDate: Option<int>, intervalMinutes: int, historyBars: nat)

  /** What the constructor accepts. */
  predicate ConfigOk(c: Config) {
    && c.capital > 0.0 && 0.0 < c.riskPct <= 100.0 && 0.0 < c.maxPositionPct <= 100.0
    && (c.commission.Some? ==> c.commission.value >= 0.0) && c.intervalMinutes > 0 && c.historyBars > 0
  }

  predicate Terminal(c: Config, t: Tick) {
    t.time == c.calendar.closeOf(t.session) - c.intervalMinutes * 60
  }

  // ---------------------------------------------------------------- state

  datatype Order = Order(quantity: real, submitted: nat)

  datatype ExitReason = StopLoss | TakeProfit | Partial | Aged | BacktestEnd

  datatype Trade = Trade(
    entryPrice: real, exitPrice: real, quantity: real, pnl: real, entryIdx: nat, exitIdx: nat,
    reason: ExitReason, slippage: real, commission: real)

  /** A filled entry, with what it was sized against. */
  datatype Entry = Entry(
    order: Order, index: nat, price: real, quantity: real, fee: real, slippage: real,
    cash: real, equity: real, stop: real)

  /** A sale, with the cash it found, what it brought in and what it cost. */
  datatype Sale = Sale(cash: real, proceeds: real, fee: real)

  datatype Position = Position(quantity: real, price: real, index: nat, fee: real, slippage: real, halved: bool)

  datatype Levels = Levels(stop: real, takeProfit: real, half: real)

  datatype Point = Point(index: nat, equity: real, cash: real)

  datatype State = State(
    cash: real, position: Position, levels: Levels, capital: real, pending: seq<Order>,
    trades: seq<Trade>, entries: seq<Entry>, curve: seq<Point>, commission: real, slippage: real,
    sales: seq<Sale>, history: seq<Tick>, session: seq<Tick>, current: Option<int>,
    previousClose: Option<real>, eligible: bool, closes: map<int, real>, traded: seq<nat>, stopped: bool)

  const Flat := Position(0.0, 0.0, 0, 0.0, 0.0, false)

  function Start(c: Config): State {
    State(c.capital, Flat, Levels(0.0, 0.0, 0.0), c.capital, [], [], [], [], 0.0, 0.0, [],
          [], [], None, None, false, map[], [], false)
  }

  // ---------------------------------------------------------------- fills

  datatype SimulatedFill = SimulatedFill(price: real, quantity: real, slippage: real, fee: real)

  function Simulate(c: Config, side: Side, quantity: real, quote: real): Result<SimulatedFill> {
    var d := Evaluate(side, quantity, quote, Standard);
    if d.Rejected? then Refused("Paper execution rejected backtest fill")
    else Ok(SimulatedFill(d.price, d.quantity, Round2(Times(Abs(d.price - d.quote), d.quantity)),
                          if c.commission.Some? then c.commission.value else d.fee))
  }

  function Cost(f: SimulatedFill): real { Times(f.price, f.quantity) + f.fee }

  /** The entry quantity after the position-size and stop-risk caps, in whole quanta. */
  function CappedQuantity(c: Config, initial: SimulatedFill, equity: real, stop: real): real
    requires initial.price != 0.0
  {
    var byPosition := Min(initial.quantity, Times(equity, c.maxPositionPct) / 100.0 / initial.price);
    var risk := initial.price - stop;
    Trunc8(if risk > 0.0 then Min(byPosition, Times(equity, c.riskPct) / 100.0 / risk) else byPosition)
  }

  /** Cap a long entry by position size, stop risk and settled cash; None when nothing is left. */
  function CapEntryFill(c: Config, order: Order, open: real, cash: real, equity: real, stop: real): Result<Option<SimulatedFill>> {
    if order.quantity <= 0.0 then Refused("Backtest entry quantity must be positive")
    else
      var initial := Simulate(c, Buy, order.quantity, open);
      if initial.Refused? then Refused(initial.reason)
      else if initial.value.price == 0.0 then Refused("division by zero")
      else if c.stopRequired && (stop <= 0.0 || stop >= initial.value.price) then
        Refused("Long-only backtest entry requires a stop below its fill price")
      else
        var quantity := CappedQuantity(c, initial.value, equity, stop);
        if quantity <= 0.0 then Ok(None)
        else
          var fill := Simulate(c, Buy, quantity, open);
          if fill.Refused? then Refused(fill.reason)
          else if Cost(fill.value) <= cash then Ok(Some(fill.value))
          else
            var spendable := cash - fill.value.fee;
            if spendable <= 0.0 || fill.value.price == 0.0 then Ok(None)
            else
              var fewer := Min(fill.value.quantity, Trunc8(spendable / fill.value.price));
              if fewer <= 0.0 then Ok(None)
              else
                var again := Simulate(c, Buy, fewer, open);
                if again.Refused? then Refused(again.reason)
                else if Cost(again.value) > cash then Ok(None)
                else Ok(Some(again.value))
  }

  // ---------------------------------------------------------------- the phases of one bar

  function EnterSession(c: Config, s: State, t: Tick): State {
    if s.current == Some(t.session) then s
    else
      var previous := c.calendar.previous(t.session);
      var close := if previous in s.closes then Some(s.closes[previous]) else None;
      s.(pending := [], previousClose := close,
         eligible := close.Some? && t.time == c.calendar.openOf(t.session),
         current := Some(t.session), session := [])
  }

  function SeeBar(c: Config, s: State, t: Tick): State {
    var entered := EnterSession(c, s, t);
    entered.(history := entered.history + [t])
  }

  function RecordClose(c: Config, s: State, t: Tick): State {
    if Terminal(c, t) then s.(closes := s.closes[t.session := t.bar.close]) else s
  }

  function FillOrder(c: Config, s: State, i: nat, t: Tick, order: Order): Result<State> {
    var equity := s.cash + Times(s.position.quantity, t.bar.open);
    var fill := CapEntryFill(c, order, t.bar.open, s.cash, equity, s.levels.stop);
    if fill.Refused? then Refused(fill.reason)
    else if fill.value.None? then Ok(s)
    else
      var f := fill.value.value;
      Ok(s.(cash := s.cash - Cost(f),
            position := Position(s.position.quantity + f.quantity, f.price, i, f.fee, f.slippage, s.position.halved),
            entries := s.entries + [Entry(order, i, f.price, f.quantity, f.fee, f.slippage, s.cash, equity, s.levels.stop)],
            commission := s.commission + f.fee, slippage := s.slippage + f.slippage))
  }

  /** Each order is filled or cancelled at this bar's open; none stays pending. */
  function FillOrders(c: Config, s: State, i: nat, t: Tick, orders: seq<Order>): Result<State> {
    if orders == [] then Ok(s)
    else
      var first := FillOrders(c, s, i, t, orders[..|orders| - 1]);
      if first.Refused? then first else FillOrder(c, first.value, i, t, orders[|orders| - 1])
  }

  function ProcessPending(c: Config, s: State, i: nat, t: Tick): Result<State> {
    if i == 0 || s.pending == [] then Ok(s)
    else FillOrders(c, s.(pending := []), i, t, s.pending)
  }

  /** Why, at what quote and for how much the position leaves at this bar. */
  datatype Exit = NoExit(halved: bool) | Exit(reason: ExitReason, quote: real, quantity: real, halved: bool)

  function ExitOf(c: Config, s: State, i: nat, bar: Bar): Exit {
    var p := s.position;
    if bar.low <= s.levels.stop then Exit(StopLoss, Min(bar.open, s.levels.stop), p.quantity, p.halved)
    else if bar.high >= s.levels.takeProfit && !p.halved then Exit(TakeProfit, s.levels.takeProfit, p.quantity, p.halved)
    else if bar.high >= s.levels.half && !p.halved then Exit(Partial, s.levels.half, Trunc8(p.quantity * 0.5), true)
    else if i as int - p.index as int >= c.maxHoldingBars then Exit(Aged, bar.open, p.quantity, p.halved)
    else NoExit(p.halved)
  }

  /** Sell `quantity` of the position, with its share of the entry's fee and slippage. */
  function SellPart(c: Config, s: State, i: nat, reason: ExitReason, quantity: real, fill: SimulatedFill): State
    requires s.position.quantity != 0.0
  {
    var p := s.position;
    var slippage := Times(p.slippage, quantity) / p.quantity;
    var fee := Times(p.fee, quantity) / p.quantity;
    var pnl := Times(fill.price - p.price, quantity) - (fee + fill.fee);
    var left := p.quantity - quantity;
    s.(trades := s.trades + [Trade(p.price, fill.price, quantity, pnl, p.index, i, reason,
                                   slippage + fill.slippage, fee + fill.fee)],
       cash := s.cash + (Times(fill.price, quantity) - fill.fee),
       commission := s.commission + fill.fee, slippage := s.slippage + fill.slippage,
       sales := s.sales + [Sale(s.cash, Times(fill.price, quantity), fill.fee)],
       position := if left <= 0.0 then Flat.(price := p.price, index := p.index)
                   else Position(left, p.price, p.index, p.fee - fee, p.slippage - slippage, p.halved),
       levels := if left <= 0.0 then Levels(0.0, 0.0, 0.0) else s.levels)
  }

  function CheckExit(c: Config, s: State, i: nat, t: Tick): Result<State> {
    if s.position.quantity <= 0.0 || s.levels.stop <= 0.0 then Ok(s)
    else
      var exit := ExitOf(c, s, i, t.bar);
      var s1 := s.(position := s.position.(halved := exit.halved));
      if exit.NoExit? || exit.quote == 0.0 || exit.quantity <= 0.0 then Ok(s1)
      else
        var fill := Simulate(c, Sell, exit.quantity, exit.quote);
        if fill.Refused? then Refused(fill.reason)
        else
          var s2 := SellPart(c, s1, i, exit.reason, exit.quantity, fill.value);
          Ok(s2.(capital := s2.cash + Times(s2.position.quantity, t.bar.close)))
  }

  function Shown(c: Config, ticks: seq<Tick>): seq<(Bar, int)> {
    seq(|ticks|, k requires 0 <= k < |ticks| => (ticks[k].bar, c.calendar.clock(ticks[k].time)))
  }

  function LastOf(ticks: seq<Tick>, n: nat): seq<Tick> {
    if |ticks| <= n then ticks else ticks[|ticks| - n..]
  }

  function ViewOf(c: Config, s: State, t: Tick): View
    requires s.previousClose.Some?
  {
    View(Shown(c, s.session), Shown(c, LastOf(s.history, c.historyBars)), s.capital, s.cash,
         c.calendar.clock(t.time), s.previousClose.value)
  }

  function AskStrategy(c: Config, s: State, i: nat, t: Tick): Result<State> {
    if s.position.quantity > 0.0 || s.pending != [] || s.previousClose.None? || c.calendar.earlyClose(t.session) then Ok(s)
    else
      var signal := c.strategy(ViewOf(c, s, t));
      if signal.None? then Ok(s)
      else
        var g := signal.value;
        if !g.side.Buy? then Refused("The single-symbol backtester is long-only")
        else if g.quantity <= 0.0 then Refused("Backtest entry quantity must be positive")
        else Ok(s.(pending := [Order(g.quantity, i)],
                   levels := Levels(g.stop, g.takeProfit, g.entry + (g.entry - g.stop))))
  }

  function Mark(c: Config, s: State, i: nat, t: Tick): State {
    RecordClose(c, s.(curve := s.curve + [Point(i, s.cash + Times(s.position.quantity, t.bar.close), s.cash)]), t)
  }

  /** A tradable bar, once the session state is up to date. */
  function TradeBar(c: Config, s: State, i: nat, t: Tick): Result<State> {
    var s1 := s.(traded := s.traded + [i], session := s.session + [t]);
    var s2 := ProcessPending(c, s1, i, t);
    if s2.Refused? then s2
    else
      var s3 := CheckExit(c, s2.value, i, t);
      if s3.Refused? then s3
      else
        var s4 := AskStrategy(c, s3.value, i, t);
        if s4.Refused? then s4 else Ok(Mark(c, s4.value, i, t))
  }

  predicate BeforeStart(c: Config, t: Tick) { c.startDate.Some? && t.session < c.startDate.value }

  predicate AfterEnd(c: Config, t: Tick) { c.endDate.Some? && t.session > c.endDate.value }

  function Step(c: Config, s: State, i: nat, t: Tick): Result<State> {
    if s.stopped then Ok(s)
    else
      var s1 := SeeBar(c, s, t);
      if BeforeStart(c, t) then Ok(RecordClose(c, s1, t))
      else if AfterEnd(c, t) then Ok(s1.(stopped := true))
      else if !s1.eligible then Ok(RecordClose(c, s1, t))
      else TradeBar(c, s1, i, t)
  }

  /** The state after the first k bars. */
  function After(c: Config, ticks: seq<Tick>, k: nat): Result<State>
    requires k <= |ticks|
  {
    if k == 0 then Ok(Start(c))
    else
      var before := After(c, ticks, k - 1);
      if before.Refused? then before else Step(c, before.value, k - 1, ticks[k - 1])
  }

  /** Whatever is still held is sold at the last tradable close. */
  function CloseOut(c: Config, ticks: seq<Tick>, s: State): Result<State> {
    if s.position.quantity <= 0.0 || s.traded == [] || s.traded[|s.traded| - 1] >= |ticks| then Ok(s)
    else
      var last := s.traded[|s.traded| - 1];
      var fill := Simulate(c, Sell, s.position.quantity, ticks[last].bar.close);
      if fill.Refused? then Refused(fill.reason)
      else
        var sold := SellPart(c, s, last, BacktestEnd, s.position.quantity, fill.value);
        Ok(if s.curve == [] then sold
           else sold.(curve := s.curve[|s.curve| - 1 := s.curve[|s.curve| - 1].(equity := sold.cash, cash := sold.cash)]))
  }

  function Simulated(c: Config, ticks: seq<Tick>): Result<State> {
    var s := After(c, ticks, |ticks|);
    if s.Refused? then s else CloseOut(c, ticks, s.value)
  }

  // ---------------------------------------------------------------- as the source runs it

  ghost predicate TicksOf(c: Config, bars: seq<Bar>, times: seq<Option<int>>, ticks: seq<Tick>) {
    && |ticks| == |bars| == |times|
    && forall i :: 0 <= i < |ticks| ==>
         && ticks[i].bar == bars[i] && times[i] == Some(ticks[i].time)
         && c.calendar.sessionAt(ticks[i].time) == Some(ticks[i].session)
  }

  method FillPendingOrders(c: Config, s: State, i: nat, t: Tick) returns (r: Result<State>)
    ensures r == ProcessPending(c, s, i, t)
  {
    hide FillOrder;
    if i == 0 || s.pending == [] {
      return Ok(s);
    }
    var now := s.(pending := []);
    for k := 0 to |s.pending|
      invariant FillOrders(c, s.(pending := []), i, t, s.pending[..k]) == Ok(now)
    {
      assert s.pending[..k + 1][..k] == s.pending[..k];
      var filled := FillOrder(c, now, i, t, s.pending[k]);
      if filled.Refused? {
        RefusedOnTheWay(c, s.(pending := []), i, t, s.pending, k + 1);
        return filled;
      }
      now := filled.value;
    }
    assert s.pending[..|s.pending|] == s.pending;
    r := Ok(now);
  }

  lemma {:induction false} RefusedOnTheWay(c: Config, s: State, i: nat, t: Tick, orders: seq<Order>, k: nat)
    requires k <= |orders| && FillOrders(c, s, i, t, orders[..k]).Refused?
    ensures FillOrders(c, s, i, t, orders) == FillOrders(c, s, i, t, orders[..k])
  {
    if k < |orders| {
      assert orders[..|orders| - 1][..k] == orders[..k];
      RefusedOnTheWay(c, s, i, t, orders[..|orders| - 1], k);
    } else {
      assert orders[..k] == orders;
    }
  }

  lemma {:induction false} RefusedEarly(c: Config, ticks: seq<Tick>, k: nat, n: nat)
    requires k <= n <= |ticks| && After(c, ticks, k).Refused?
    ensures After(c, ticks, n) == After(c, ticks, k)
  {
    hide Step;
    if k < n {
      RefusedEarly(c, ticks, k, n - 1);
    }
  }

  lemma {:induction false} StoppedForGood(c: Config, ticks: seq<Tick>, k: nat, n: nat)
    requires k <= n <= |ticks| && After(c, ticks, k).Ok? && After(c, ticks, k).value.stopped
    ensures After(c, ticks, n) == After(c, ticks, k)
  {
    hide TradeBar, SeeBar;
    if k < n {
      StoppedForGood(c, ticks, k, n - 1);
    }
  }

  /** Bad series, bars outside every session and rejected fills refuse the run. */
  method Run(c: Config, bars: seq<Bar>, times: seq<Option<int>>) returns (r: Result<State>)
    requires ConfigOk(c)
    ensures !SoundSeries(bars, times) ==> r.Refused?
    ensures SoundSeries(bars, times) ==>
              if exists i :: 0 <= i < |times| && times[i].Some? && c.calendar.sessionAt(times[i].value).None? then r.Refused?
              else exists ticks :: TicksOf(c, bars, times, ticks) && r == Simulated(c, ticks)
  {
    hide Step, CloseOut, SoundSeries;
    var refusal := ValidateBarSeries(bars, times);
    if refusal.Some? {
      return Refused(refusal.value);
    }
    SoundTimes(bars, times);
    var ticks: seq<Tick> := [];
    for i := 0 to |bars|
      invariant TicksOf(c, bars[..i], times[..i], ticks)
    {
      var session := c.calendar.sessionAt(times[i].value);
      if session.None? {
        return Refused("outside XNYS regular session");
      }
      ticks := ticks + [Tick(bars[i], times[i].value, session.value)];
    }
    assert bars[..|bars|] == bars && times[..|times|] == times;
    var s := Start(c);
    var k := 0;
    while k < |ticks| && !s.stopped
      invariant k <= |ticks| && After(c, ticks, k) == Ok(s)
    {
      var next := Step(c, s, k, ticks[k]);
      k := k + 1;
      if next.Refused? {
        RefusedEarly(c, ticks, k, |ticks|);
        return next;
      }
      s := next.value;
    }
    if s.stopped {
      StoppedForGood(c, ticks, k, |ticks|);
    }
    r := CloseOut(c, ticks, s);
  }

  lemma SoundTimes(bars: seq<Bar>, times: seq<Option<int>>)
    requires SoundSeries(bars, times)
    ensures |bars| == |times| && forall i :: 0 <= i < |times| ==> times[i].Some?
  {
    forall i | 0 <= i < |times| ensures times[i].Some? {
      assert times[i] in times;
    }
  }
}
