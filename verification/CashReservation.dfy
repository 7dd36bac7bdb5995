/** Cash that open buys have been promised (apps/api/app/execution/cash_reservation.py and the
    admission that uses it, apps/api/app/execution/engine.py:415-489).

    Readings go stale, orders fill at the broker before anything here is told, clocks differ,
    and admissions of different accounts run side by side; one admission at a time is held per
    environment and venue until its transaction ends. */
module CashReservation {
  import opened Outcomes

  const CLOCK_TOLERANCE := 60
  const UNDATED_CASH_FIGURE_AGE := 900

  datatype Side = Buy | Sell
  datatype Status =
    | PendingIntent | Submitted | SubmissionUnknown | Accepted | PartiallyFilled
    | Filled | Cancelled | Rejected | Error

  predicate Terminal(s: Status) { s.Filled? || s.Cancelled? || s.Rejected? || s.Error? }

  /** The order lifecycle table (apps/api/app/execution/state_machine.py:16-48). */
  predicate CanMove(from: Status, to: Status) {
    match from
    case PendingIntent => to in {Submitted, SubmissionUnknown, Rejected, Cancelled, Error}
    case Submitted => to in {Accepted, PartiallyFilled, Filled, Rejected, Cancelled, Error}
    case SubmissionUnknown => to in {Accepted, PartiallyFilled, Filled, Rejected, Cancelled, Error}
    case Accepted => to in {PartiallyFilled, Filled, Rejected, Cancelled, Error}
    case PartiallyFilled => to in {Filled, Cancelled, Rejected, Error}
    case _ => false
  }

  /** The cash an order really draws on. */
  datatype Pool = Pool(environment: string, venue: string, account: string)

  /** A row of the orders table as it is recorded. */
  datatype Row = Row(
    side: Side, dryRun: bool, venue: string, environment: Option<string>, account: Option<string>,
    cashUsed: Option<real>, status: Status,
    updatedAt: int, filledAt: Option<int>, cancelledAt: Option<int>, rejectedAt: Option<int>)

  // ---------------------------------------------------------------- the rule

  function ReadingTimeOrAssumed(cashReadAt: Option<int>, present: int): int {
    if cashReadAt.Some? && cashReadAt.value <= present + CLOCK_TOLERANCE then cashReadAt.value
    else present - UNDATED_CASH_FIGURE_AGE
  }

  predicate SameAccount(r: Row, scope: Option<string>) {
    scope.None? || r.account == scope || r.account.None?
  }

  predicate SameEnvironment(r: Row, environment: Option<string>) {
    environment.None? || r.environment == environment || r.environment.None?
  }

  predicate Since(at: Option<int>, earliest: int) { at.Some? && at.value >= earliest }

  predicate NotShownInAReadingFrom(r: Row, cashReadAt: int) {
    var earliest := cashReadAt - CLOCK_TOLERANCE;
    || !Terminal(r.status)
    || r.updatedAt >= earliest || Since(r.filledAt, earliest)
    || Since(r.cancelledAt, earliest) || Since(r.rejectedAt, earliest)
  }

  function Counted(r: Row, environment: Option<string>, venue: string, scope: Option<string>, cashReadAt: int): real {
    if r.side.Buy? && !r.dryRun && r.venue == venue && r.cashUsed.Some?
       && SameEnvironment(r, environment) && SameAccount(r, scope) && NotShownInAReadingFrom(r, cashReadAt)
    then r.cashUsed.value else 0.0
  }

  function Sum(xs: seq<real>): real {
    if xs == [] then 0.0 else Sum(xs[..|xs| - 1]) + xs[|xs| - 1]
  }

  function CashPromisedElsewhere(
    rows: seq<Row>, environment: Option<string>, venue: string, scope: Option<string>, cashReadAt: int
  ): real {
    Sum(seq(|rows|, i requires 0 <= i < |rows| => Counted(rows[i], environment, venue, scope, cashReadAt)))
  }

  predicate Admits(cost: Option<real>, promised: real, available: real) {
    cost.Some? && cost.value + promised <= available
  }

  const ADMISSION_WAIT := 10

  /** Asks for the turn again and again, never waiting on its holder; `replies` and `clock` are
      what the database and the monotonic clock say at each ask. It is refused only once the
      wait is over and every ask was refused, and a turn that comes free at an ask made in
      time is always taken. */
  method TakeAdmissionTurn(advisoryLocks: bool, start: int, replies: seq<bool>, clock: seq<int>) returns (taken: bool, asked: nat)
    requires |replies| == |clock| && exists i :: 0 <= i < |clock| && clock[i] >= start + ADMISSION_WAIT
    ensures !advisoryLocks ==> taken && asked == 0
    ensures advisoryLocks ==>
              && 0 < asked <= |replies|
              && (forall i :: 0 <= i < asked - 1 ==> !replies[i] && clock[i] < start + ADMISSION_WAIT)
              && taken == replies[asked - 1]
              && (!taken ==> clock[asked - 1] >= start + ADMISSION_WAIT)
  {
    if !advisoryLocks {
      return true, 0;
    }
    var giveUpAt := start + ADMISSION_WAIT;
    asked := 0;
    while true
      invariant asked <= |replies|
      invariant forall i :: 0 <= i < asked ==> !replies[i] && clock[i] < giveUpAt
      decreases |replies| - asked
    {
      asked := asked + 1;
      if replies[asked - 1] {
        return true, asked;
      }
      if clock[asked - 1] >= giveUpAt {
        return false, asked;
      }
    }
  }

  // ---------------------------------------------------------------- the system

  /** A recorded order with what is true of it but not written down: the cash it draws on,
      what the broker has spent on it, and when it really ended. */
  datatype Order = Order(row: Row, pool: Pool, spent: real, endedAt: int)

  /** A cash figure, with the true time it was read and what each order had spent by then. */
  datatype Reading = Reading(pool: Pool, cash: real, time: int, spentThen: seq<real>)

  /** How far apart two clocks may be, and how old an undated figure may be. */
  datatype Assumptions = Assumptions(skew: nat, undatedAge: nat)

  datatype State = State(
    now: int, cash: map<Pool, real>, orders: seq<Order>, readings: seq<Reading>,
    turns: map<(string, string), Order>)

  datatype Action =
    | Read(pool: Pool)
    | Admit(reading: nat, cost: Option<real>, scope: Option<string>, recordsEnvironment: bool,
            cashReadAt: Option<int>, present: int)
    | Commit(turn: (string, string))
    | Abort(turn: (string, string))
    | RecordOther(row: Row, pool: Pool)   // a sell or a dry run: reserves nothing
    | Spend(order: nat, amount: real)     // the broker fills part of an order
    | Credit(pool: Pool, amount: real)    // sale proceeds, deposits
    | Move(order: nat, to: Status, stamp: int)
    | Touch(order: nat, stamp: int)
    | Tick(seconds: nat)

  predicate RealBuy(r: Row) { r.side.Buy? && !r.dryRun && r.cashUsed.Some? }

  ghost predicate Enabled(a: Assumptions, s: State, x: Action) {
    match x
    case Read(p) => p in s.cash
    case Admit(k, cost, scope, _, readAt, present) =>
      && k < |s.readings|
      && var r := s.readings[k];
         && (r.pool.environment, r.pool.venue) !in s.turns
         && (cost.Some? ==> cost.value >= 0.0)
         && (scope.Some? ==> scope.value == r.pool.account)
         && s.now <= present <= s.now + a.skew
         && (if readAt.Some? then readAt.value <= r.time + a.skew else s.now - r.time <= a.undatedAge)
    case Commit(t) => t in s.turns
    case Abort(t) => t in s.turns
    case RecordOther(row, _) => row.side.Sell? || row.dryRun
    case Spend(i, amount) =>
      && i < |s.orders| && amount >= 0.0
      && RealBuy(s.orders[i].row) && !Terminal(s.orders[i].row.status)
      && s.orders[i].spent + amount <= s.orders[i].row.cashUsed.value
    case Credit(p, amount) => p in s.cash && amount >= 0.0
    case Move(i, to, stamp) =>
      i < |s.orders| && CanMove(s.orders[i].row.status, to) && s.now <= stamp <= s.now + a.skew
    case Touch(i, stamp) => i < |s.orders| && s.now <= stamp <= s.now + a.skew
    case Tick(_) => true
  }

  function NewOrder(r: Reading, cost: real, scope: Option<string>, recordsEnvironment: bool, stamp: int): Order {
    var p := r.pool;
    Order(Row(Buy, false, p.venue, if recordsEnvironment then Some(p.environment) else None, scope,
              Some(cost), PendingIntent, stamp, None, None, None), p, 0.0, r.time)
  }

  function Spent(o: Order): real { o.spent }

  function SpentByAll(orders: seq<Order>): seq<real> {
    seq(|orders|, i requires 0 <= i < |orders| => Spent(orders[i]))
  }

  function Rows(orders: seq<Order>): seq<Row> {
    seq(|orders|, i requires 0 <= i < |orders| => orders[i].row)
  }

  ghost function Next(a: Assumptions, s: State, x: Action): State
    requires Enabled(a, s, x)
  {
    match x
    case Read(p) => s.(readings := s.readings + [Reading(p, s.cash[p], s.now, SpentByAll(s.orders))])
    case Admit(k, cost, scope, recordsEnvironment, readAt, present) =>
      var r := s.readings[k];
      var promised := CashPromisedElsewhere(
        Rows(s.orders), Some(r.pool.environment), r.pool.venue, scope, ReadingTimeOrAssumed(readAt, present));
      if Admits(cost, promised, r.cash) then
        s.(turns := s.turns[(r.pool.environment, r.pool.venue) :=
                            NewOrder(r, cost.value, scope, recordsEnvironment, present)])
      else s
    case Commit(t) => s.(orders := s.orders + [s.turns[t]], turns := s.turns - {t})
    case Abort(t) => s.(turns := s.turns - {t})
    case RecordOther(row, p) => s.(orders := s.orders + [Order(row, p, 0.0, s.now)])
    case Spend(i, amount) =>
      var o := s.orders[i];
      s.(orders := s.orders[i := o.(spent := o.spent + amount)],
         cash := if o.pool in s.cash then s.cash[o.pool := s.cash[o.pool] - amount] else s.cash)
    case Credit(p, amount) => s.(cash := s.cash[p := s.cash[p] + amount])
    case Move(i, to, stamp) =>
      var o := s.orders[i];
      s.(orders := s.orders[i := o.(row := o.row.(status := to, updatedAt := stamp), endedAt := s.now)])
    case Touch(i, stamp) =>
      var o := s.orders[i];
      s.(orders := s.orders[i := o.(row := o.row.(updatedAt := stamp))])
    case Tick(seconds) => s.(now := s.now + seconds)
  }

  /** The state after a schedule from an empty table, None when a step of it cannot happen. */
  ghost function After(a: Assumptions, cash: map<Pool, real>, schedule: seq<Action>): Option<State> {
    if schedule == [] then Some(State(0, cash, [], [], map[]))
    else
      var before := After(a, cash, schedule[..|schedule| - 1]);
      var x := schedule[|schedule| - 1];
      if before.Some? && Enabled(a, before.value, x) then Some(Next(a, before.value, x)) else None
  }

  // ---------------------------------------------------------------- safety

  /** What an order may still take from the pool. */
  function Outstanding(o: Order, p: Pool): real {
    if o.pool == p && RealBuy(o.row) && !Terminal(o.row.status) then o.row.cashUsed.value - o.spent else 0.0
  }

  function OpenBuys(orders: seq<Order>, p: Pool): real {
    Sum(seq(|orders|, i requires 0 <= i < |orders| => Outstanding(orders[i], p)))
  }

  /** The cost of an admitted order whose transaction has not ended. */
  function InTurn(s: State, p: Pool): real {
    var t := (p.environment, p.venue);
    if t in s.turns then Outstanding(s.turns[t], p) else 0.0
  }

  ghost predicate CashCoversOpenBuys(s: State) {
    forall p <- s.cash :: s.cash[p] >= OpenBuys(s.orders, p) + InTurn(s, p)
  }

  /** What an order has spent from the pool of a reading since that reading. */
  function SpentSince(o: Order, i: nat, r: Reading): real {
    if o.pool != r.pool then 0.0 else o.spent - (if i < |r.spentThen| then r.spentThen[i] else 0.0)
  }

  function AllSpentSince(orders: seq<Order>, r: Reading): real {
    Sum(seq(|orders|, i requires 0 <= i < |orders| => SpentSince(orders[i], i, r)))
  }

  ghost predicate OrderOk(o: Order) {
    var r := o.row;
    && (!RealBuy(r) ==> o.spent == 0.0)
    && (RealBuy(r) ==> 0.0 <= o.spent <= r.cashUsed.value)
    && (r.side.Buy? && !r.dryRun ==> r.cashUsed.Some?)
    && (RealBuy(r) ==>
          && r.venue == o.pool.venue
          && (r.environment.Some? ==> r.environment.value == o.pool.environment)
          && (r.account.Some? ==> r.account.value == o.pool.account))
    && (RealBuy(r) && Terminal(r.status) ==> o.endedAt <= r.updatedAt)
  }

  /** Against one order, a reading knows: what it had spent then, and if it spent more
      afterwards, it ended (if at all) no earlier than the reading. */
  ghost predicate KnownAt(o: Order, i: nat, r: Reading) {
    var before := if i < |r.spentThen| then r.spentThen[i] else 0.0;
    && 0.0 <= before <= o.spent
    && (before < o.spent && Terminal(o.row.status) ==> r.time <= o.endedAt)
  }

  ghost predicate ReadingOk(s: State, r: Reading) {
    && r.pool in s.cash && r.time <= s.now
    && (forall i :: 0 <= i < |s.orders| ==> KnownAt(s.orders[i], i, r))
    && |r.spentThen| <= |s.orders|
    && s.cash[r.pool] >= r.cash - AllSpentSince(s.orders, r)
  }

  ghost predicate Invariant(s: State) {
    && (forall o <- s.orders :: OrderOk(o) && o.endedAt <= s.now)
    && (forall t <- s.turns ::
          var o := s.turns[t];
          OrderOk(o) && o.endedAt <= s.now && RealBuy(o.row) && !Terminal(o.row.status) && o.spent == 0.0
          && t == (o.pool.environment, o.pool.venue))
    && (forall r <- s.readings :: ReadingOk(s, r))
    && CashCoversOpenBuys(s)
  }
}
