/** No schedule lets open buys outrun the cash, exactly as long as clocks and undated readings
    stay within what the rule allows for. */
module CashReservationProofs {
  import opened Outcomes
  import opened CashReservation

  // ---------------------------------------------------------------- sums

  lemma {:induction false} SumDominates(a: seq<real>, b: seq<real>, c: seq<real>)
    requires |a| == |b| == |c| && forall i :: 0 <= i < |a| ==> a[i] + b[i] <= c[i]
    ensures Sum(a) + Sum(b) <= Sum(c)
  {
    if a != [] {
      var n := |a| - 1;
      SumDominates(a[..n], b[..n], c[..n]);
    }
  }

  lemma {:induction false} SumChange(a: seq<real>, b: seq<real>, i: nat)
    requires |a| == |b| && i < |a|
    requires forall j :: 0 <= j < |a| && j != i ==> a[j] == b[j]
    ensures Sum(b) == Sum(a) - a[i] + b[i]
  {
    var n := |a| - 1;
    if i == n {
      assert a[..n] == b[..n];
    } else {
      SumChange(a[..n], b[..n], i);
    }
  }

  lemma SumAppend(a: seq<real>, b: seq<real>)
    requires |b| == |a| + 1 && forall j :: 0 <= j < |a| ==> a[j] == b[j]
    ensures Sum(b) == Sum(a) + b[|a|]
  {
    assert b[..|a|] == a;
  }

  function OutstandingOf(orders: seq<Order>, p: Pool): seq<real> {
    seq(|orders|, i requires 0 <= i < |orders| => Outstanding(orders[i], p))
  }

  function SpentSinceOf(orders: seq<Order>, r: Reading): seq<real> {
    seq(|orders|, i requires 0 <= i < |orders| => SpentSince(orders[i], i, r))
  }

  lemma OneOrderChanges(orders: seq<Order>, i: nat, o: Order, p: Pool, r: Reading)
    requires i < |orders|
    ensures OpenBuys(orders[i := o], p) == OpenBuys(orders, p) - Outstanding(orders[i], p) + Outstanding(o, p)
    ensures AllSpentSince(orders[i := o], r)
         == AllSpentSince(orders, r) - SpentSince(orders[i], i, r) + SpentSince(o, i, r)
  {
    SumChange(OutstandingOf(orders, p), OutstandingOf(orders[i := o], p), i);
    SumChange(SpentSinceOf(orders, r), SpentSinceOf(orders[i := o], r), i);
  }

  lemma OneOrderArrives(orders: seq<Order>, o: Order, p: Pool, r: Reading)
    ensures OpenBuys(orders + [o], p) == OpenBuys(orders, p) + Outstanding(o, p)
    ensures AllSpentSince(orders + [o], r) == AllSpentSince(orders, r) + SpentSince(o, |orders|, r)
  {
    SumAppend(OutstandingOf(orders, p), OutstandingOf(orders + [o], p));
    SumAppend(SpentSinceOf(orders, r), SpentSinceOf(orders + [o], r));
  }

  // ---------------------------------------------------------------- one admission

  ghost predicate WithinTolerance(a: Assumptions) {
    a.skew <= CLOCK_TOLERANCE && a.undatedAge + a.skew <= UNDATED_CASH_FIGURE_AGE + CLOCK_TOLERANCE
  }

  /** The heart of the rule, for one order: whatever it spent after the reading and may still
      spend is at most what the admission counts for it. Open and just-ended orders are
      over-counted, never missed. */
  lemma CountedCoversOrder(o: Order, i: nat, r: Reading, scope: Option<string>, cashReadAt: int)
    requires OrderOk(o) && KnownAt(o, i, r)
    requires scope.Some? ==> scope.value == r.pool.account
    requires cashReadAt - CLOCK_TOLERANCE <= r.time
    ensures SpentSince(o, i, r) + Outstanding(o, r.pool)
         <= Counted(o.row, Some(r.pool.environment), r.pool.venue, scope, cashReadAt)
  {}

  /** The time an admission counts from is never so late that it misses what the reading does
      not show. */
  lemma CountsFromEarlyEnough(a: Assumptions, s: State, x: Action)
    requires WithinTolerance(a) && Invariant(s) && x.Admit? && Enabled(a, s, x)
    ensures ReadingTimeOrAssumed(x.cashReadAt, x.present) - CLOCK_TOLERANCE <= s.readings[x.reading].time
  {
    assert ReadingOk(s, s.readings[x.reading]);
  }

  lemma PromisedCovers(a: Assumptions, s: State, x: Action)
    requires WithinTolerance(a) && Invariant(s) && x.Admit? && Enabled(a, s, x)
    ensures var r := s.readings[x.reading];
            var promised := CashPromisedElsewhere(Rows(s.orders), Some(r.pool.environment), r.pool.venue,
                                                  x.scope, ReadingTimeOrAssumed(x.cashReadAt, x.present));
            r.pool in s.cash && r.cash - promised <= s.cash[r.pool] - OpenBuys(s.orders, r.pool)
  {
    var r := s.readings[x.reading];
    var readAt := ReadingTimeOrAssumed(x.cashReadAt, x.present);
    CountsFromEarlyEnough(a, s, x);
    assert ReadingOk(s, r);
    var rows := Rows(s.orders);
    var counted := seq(|rows|, i requires 0 <= i < |rows| =>
      Counted(rows[i], Some(r.pool.environment), r.pool.venue, x.scope, readAt));
    forall i | 0 <= i < |s.orders|
      ensures SpentSinceOf(s.orders, r)[i] + OutstandingOf(s.orders, r.pool)[i] <= counted[i]
    {
      CountedCoversOrder(s.orders[i], i, r, x.scope, readAt);
    }
    SumDominates(SpentSinceOf(s.orders, r), OutstandingOf(s.orders, r.pool), counted);
  }

  // ---------------------------------------------------------------- what is left out

  /** An order may still draw on the cash of this account, or drew on it after `since`: it is a
      real buy there with a cost on record, open or stamped no earlier than that. */
  predicate MayDrawSince(r: Row, environment: Option<string>, venue: string, scope: Option<string>, since: int) {
    && r.side == Buy && !r.dryRun && r.cashUsed.Some? && r.venue == venue
    && !(r.environment.Some? && environment.Some? && r.environment.value != environment.value)
    && !(r.account.Some? && scope.Some? && r.account.value != scope.value)
    && !(&& r.status in {Filled, Cancelled, Rejected, Error}
         && r.updatedAt < since
         && (r.filledAt.Some? ==> r.filledAt.value < since)
         && (r.cancelledAt.Some? ==> r.cancelledAt.value < since)
         && (r.rejectedAt.Some? ==> r.rejectedAt.value < since))
  }

  /** An order is counted, with its whole cost, exactly when it may still draw on the cash or
      may have drawn on it within the tolerance; an order that ended before, another account's,
      environment's or venue's, a sell and a dry run count nothing. */
  lemma CountedExactlyWhen(r: Row, environment: Option<string>, venue: string, scope: Option<string>, cashReadAt: int)
    ensures Counted(r, environment, venue, scope, cashReadAt)
         == if MayDrawSince(r, environment, venue, scope, cashReadAt - 60) then r.cashUsed.value else 0.0
  {}

  /** The costs of all such orders. */
  function Committed(orders: seq<Order>, environment: string, venue: string, scope: Option<string>, since: int): real {
    if orders == [] then 0.0
    else
      var r := orders[|orders| - 1].row;
      Committed(orders[..|orders| - 1], environment, venue, scope, since)
      + (if MayDrawSince(r, Some(environment), venue, scope, since) then r.cashUsed.value else 0.0)
  }

  lemma {:induction false} PromisedIsCommitted(orders: seq<Order>, environment: string, venue: string, scope: Option<string>, cashReadAt: int)
    ensures CashPromisedElsewhere(Rows(orders), Some(environment), venue, scope, cashReadAt)
         == Committed(orders, environment, venue, scope, cashReadAt - 60)
  {
    hide Counted, MayDrawSince;
    var rows := Rows(orders);
    var counted := seq(|rows|, i requires 0 <= i < |rows| => Counted(rows[i], Some(environment), venue, scope, cashReadAt));
    if orders != [] {
      var n := |orders| - 1;
      PromisedIsCommitted(orders[..n], environment, venue, scope, cashReadAt);
      CountedExactlyWhen(orders[n].row, Some(environment), venue, scope, cashReadAt);
      var before := Rows(orders[..n]);
      assert counted[..n]
          == seq(|before|, i requires 0 <= i < |before| => Counted(before[i], Some(environment), venue, scope, cashReadAt));
    }
  }

  /** The order of an admission: a live buy of the reading's pool that draws on its whole cost, not
      yet dispatched, stamped now, under the account named. */
  ghost function Admitted(r: Reading, x: Action): Order
    requires x.Admit? && x.cost.Some?
  {
    var row := Row(Buy, false, r.pool.venue, if x.recordsEnvironment then Some(r.pool.environment) else None, x.scope,
                   x.cost, PendingIntent, x.present, None, None, None);
    Order(row, r.pool, 0.0, r.time)
  }

  /** An admission goes through exactly when its cost is known and, with the costs of the orders
      that may draw on the same cash, is at most the reading: counted from the stated time of
      the reading if that is no more than a minute ahead of the clock, and from a quarter of an
      hour ago otherwise, less a minute. A refused admission changes nothing. */
  lemma AdmittedExactlyWhen(a: Assumptions, s: State, x: Action)
    requires x.Admit? && Enabled(a, s, x)
    ensures var r := s.readings[x.reading];
            var since := (if x.cashReadAt.Some? && x.cashReadAt.value <= x.present + 60 then x.cashReadAt.value
                          else x.present - 900) - 60;
            var committed := Committed(s.orders, r.pool.environment, r.pool.venue, x.scope, since);
            && (Next(a, s, x) != s <==> x.cost.Some? && x.cost.value + committed <= r.cash)
            && (Next(a, s, x) != s ==>
                  Next(a, s, x) == s.(turns := s.turns[(r.pool.environment, r.pool.venue) := Admitted(r, x)]))
  {
    hide CashPromisedElsewhere, Committed;
    var r := s.readings[x.reading];
    PromisedIsCommitted(s.orders, r.pool.environment, r.pool.venue, x.scope, ReadingTimeOrAssumed(x.cashReadAt, x.present));
    assert (r.pool.environment, r.pool.venue) !in s.turns;
  }

  /** The order lifecycle: the statuses that end an order are those nothing leads out of, every
      open order can be cancelled, rejected or fail, and a dispatched one can be filled; nothing
      leads back to an order not yet dispatched. */
  lemma LifecycleEnds(from: Status, to: Status)
    ensures Terminal(from) <==> from in {Filled, Cancelled, Rejected, Error}
    ensures Terminal(from) ==> !CanMove(from, to)
    ensures !Terminal(from) ==> CanMove(from, Cancelled) && CanMove(from, Rejected) && CanMove(from, Error)
    ensures CanMove(from, Filled) <==> !Terminal(from) && from != PendingIntent
    ensures CanMove(from, PartiallyFilled) <==> from in {Submitted, SubmissionUnknown, Accepted}
    ensures CanMove(from, Accepted) <==> from in {Submitted, SubmissionUnknown}
    ensures CanMove(from, Submitted) || CanMove(from, SubmissionUnknown) <==> from == PendingIntent
    ensures !CanMove(from, PendingIntent)
  {}

  // ---------------------------------------------------------------- where the cash goes

  /** What all orders have spent from a pool. */
  function TakenFrom(orders: seq<Order>, p: Pool): real {
    if orders == [] then 0.0
    else
      var o := orders[|orders| - 1];
      TakenFrom(orders[..|orders| - 1], p) + (if o.pool == p then o.spent else 0.0)
  }

  /** What a schedule puts into a pool. */
  ghost function Credited(schedule: seq<Action>, p: Pool): real {
    if schedule == [] then 0.0
    else
      var x := schedule[|schedule| - 1];
      Credited(schedule[..|schedule| - 1], p) + (if x.Credit? && x.pool == p then x.amount else 0.0)
  }

  lemma {:induction false} TakenChange(orders: seq<Order>, i: nat, o: Order, p: Pool)
    requires i < |orders| && o.pool == orders[i].pool
    ensures TakenFrom(orders[i := o], p) == TakenFrom(orders, p) + (if o.pool == p then o.spent - orders[i].spent else 0.0)
  {
    var n := |orders| - 1;
    if i == n {
      assert orders[i := o][..n] == orders[..n];
    } else {
      assert orders[i := o][..n] == orders[..n][i := o];
      TakenChange(orders[..n], i, o, p);
    }
  }

  lemma TakenAppend(orders: seq<Order>, o: Order, p: Pool)
    ensures TakenFrom(orders + [o], p) == TakenFrom(orders, p) + (if o.pool == p then o.spent else 0.0)
  {
    assert (orders + [o])[..|orders|] == orders;
  }

  lemma StepAccountsForCash(a: Assumptions, s: State, x: Action, p: Pool)
    requires Enabled(a, s, x) && p in s.cash && forall t <- s.turns :: s.turns[t].spent == 0.0
    ensures var s' := Next(a, s, x);
            && p in s'.cash && (forall t <- s'.turns :: s'.turns[t].spent == 0.0)
            && s'.cash[p] + TakenFrom(s'.orders, p)
               == s.cash[p] + TakenFrom(s.orders, p) + (if x.Credit? && x.pool == p then x.amount else 0.0)
  {
    hide CashPromisedElsewhere, TakenFrom, SpentByAll;
    match x
    case Commit(t) => TakenAppend(s.orders, s.turns[t], p);
    case RecordOther(row, pool) => TakenAppend(s.orders, Order(row, pool, 0.0, s.now), p);
    case Spend(i, amount) => TakenChange(s.orders, i, s.orders[i].(spent := s.orders[i].spent + amount), p);
    case Move(i, to, stamp) => TakenChange(s.orders, i, Next(a, s, x).orders[i], p);
    case Touch(i, stamp) => TakenChange(s.orders, i, Next(a, s, x).orders[i], p);
    case _ =>
  }

  /** Under every schedule a pool's cash is what it started with and was credited, less what
      its orders have spent. */
  lemma {:induction false} CashIsAccountedFor(a: Assumptions, cash: map<Pool, real>, schedule: seq<Action>, p: Pool)
    requires p in cash && After(a, cash, schedule).Some?
    ensures var s := After(a, cash, schedule).value;
            && p in s.cash && (forall t <- s.turns :: s.turns[t].spent == 0.0)
            && s.cash[p] == cash[p] + Credited(schedule, p) - TakenFrom(s.orders, p)
  {
    hide Next, Enabled;
    if schedule != [] {
      var n := |schedule| - 1;
      CashIsAccountedFor(a, cash, schedule[..n], p);
      StepAccountsForCash(a, After(a, cash, schedule[..n]).value, schedule[n], p);
    }
  }

  /** A turn is held from its admission until its own transaction ends; committing records its
      order, as does recording a sell or a dry run, and nothing else adds or drops an order; a
      change of an order is stamped on it. */
  lemma TurnsEndWithTheirTransactions(a: Assumptions, s: State, x: Action, t: (string, string))
    requires Enabled(a, s, x)
    ensures var s' := Next(a, s, x);
            && (t in s.turns ==> (t in s'.turns <==> x != Commit(t) && x != Abort(t)))
            && (t in s.turns && t in s'.turns ==> s'.turns[t] == s.turns[t])
            && (t !in s.turns && t in s'.turns ==> x.Admit?)
            && |s'.orders| == |s.orders| + (if x.Commit? || x.RecordOther? then 1 else 0)
            && (x == Commit(t) ==> s'.orders[|s.orders|] == s.turns[t])
            && (x.Move? ==> var o := s.orders[x.order];
                            s'.orders[x.order] == o.(row := o.row.(status := x.to, updatedAt := x.stamp), endedAt := s.now))
            && (x.Touch? ==> var o := s.orders[x.order];
                             s'.orders[x.order] == o.(row := o.row.(updatedAt := x.stamp)))
            && (x.RecordOther? ==> s'.orders[|s.orders|].row == x.row && s'.orders[|s.orders|].pool == x.pool)
  {
    hide CashPromisedElsewhere, SpentByAll;
  }

  // ---------------------------------------------------------------- every step

  lemma TurnsStayOk(a: Assumptions, s: State, x: Action)
    requires Invariant(s) && Enabled(a, s, x)
    ensures var s' := Next(a, s, x);
            forall t <- s'.turns ::
              var o := s'.turns[t];
              OrderOk(o) && o.endedAt <= s'.now && RealBuy(o.row) && !Terminal(o.row.status) && o.spent == 0.0
              && t == (o.pool.environment, o.pool.venue)
  {
    hide CashPromisedElsewhere, CashCoversOpenBuys, InTurn, SpentByAll, AllSpentSince, KnownAt;
    var s' := Next(a, s, x);
    if x.Admit? {
      var r := s.readings[x.reading];
      assert ReadingOk(s, r);
      forall t | t in s'.turns
        ensures t in s.turns || s'.turns[t] == NewOrder(r, x.cost.value, x.scope, x.recordsEnvironment, x.present)
      {}
    }
  }

  lemma OrdersStayOk(a: Assumptions, s: State, x: Action)
    requires Invariant(s) && Enabled(a, s, x)
    ensures var s' := Next(a, s, x);
            forall o <- s'.orders :: OrderOk(o) && o.endedAt <= s'.now
  {
    hide CashPromisedElsewhere, CashCoversOpenBuys, InTurn, SpentByAll, ReadingOk, Rows, NewOrder;
    var s' := Next(a, s, x);
    forall o | o in s'.orders ensures OrderOk(o) && o.endedAt <= s'.now {
      if o !in s.orders && (x.Spend? || x.Move? || x.Touch?) {
        assert s.orders[x.order] in s.orders;
      }
    }
  }

  lemma NewReadingOk(s: State, p: Pool)
    requires Invariant(s) && p in s.cash
    ensures ReadingOk(s, Reading(p, s.cash[p], s.now, SpentByAll(s.orders)))
  {
    var r := Reading(p, s.cash[p], s.now, SpentByAll(s.orders));
    forall i | 0 <= i < |s.orders| ensures KnownAt(s.orders[i], i, r) {
      assert s.orders[i] in s.orders;
    }
    assert forall i :: 0 <= i < |s.orders| ==> SpentSinceOf(s.orders, r)[i] == 0.0;
    AllZero(SpentSinceOf(s.orders, r));
  }

  lemma {:induction false} AllZero(a: seq<real>)
    requires forall i :: 0 <= i < |a| ==> a[i] == 0.0
    ensures Sum(a) == 0.0
  {
    if a != [] {
      AllZero(a[..|a| - 1]);
    }
  }

  lemma ReadingStaysOk(a: Assumptions, s: State, x: Action, r: Reading)
    requires Invariant(s) && Enabled(a, s, x) && r in s.readings
    ensures ReadingOk(Next(a, s, x), r)
  {
    hide Sum, AllSpentSince, OpenBuys, CashPromisedElsewhere, InTurn, Counted, Outstanding, Rows, SpentByAll;
    var s' := Next(a, s, x);
    assert ReadingOk(s, r);
    match x {
      case Commit(t) => OneOrderArrives(s.orders, s.turns[t], r.pool, r);
      case RecordOther(row, p) => OneOrderArrives(s.orders, Order(row, p, 0.0, s.now), r.pool, r);
      case Spend(i, _) => OneOrderChanges(s.orders, i, s'.orders[i], r.pool, r);
      case Move(i, _, _) => OneOrderChanges(s.orders, i, s'.orders[i], r.pool, r);
      case Touch(i, _) => OneOrderChanges(s.orders, i, s'.orders[i], r.pool, r);
      case _ =>
    }
  }

  lemma CashStaysEnough(a: Assumptions, s: State, x: Action, p: Pool)
    requires WithinTolerance(a) && Invariant(s) && Enabled(a, s, x) && p in Next(a, s, x).cash
    ensures Next(a, s, x).cash[p] >= OpenBuys(Next(a, s, x).orders, p) + InTurn(Next(a, s, x), p)
  {
    hide Sum, AllSpentSince, OpenBuys, CashPromisedElsewhere, ReadingOk, Counted, SpentSince, Rows, SpentByAll;
    var s' := Next(a, s, x);
    var none := Reading(p, 0.0, 0, []);
    match x {
      case Admit(_, _, _, _, _, _) => PromisedCovers(a, s, x);
      case Commit(t) => OneOrderArrives(s.orders, s.turns[t], p, none);
      case RecordOther(row, q) => OneOrderArrives(s.orders, Order(row, q, 0.0, s.now), p, none);
      case Spend(i, _) => OneOrderChanges(s.orders, i, s'.orders[i], p, none);
      case Move(i, _, _) =>
        assert OrderOk(s.orders[i]);
        OneOrderChanges(s.orders, i, s'.orders[i], p, none);
      case Touch(i, _) => OneOrderChanges(s.orders, i, s'.orders[i], p, none);
      case _ =>
    }
  }

  lemma StepKeepsInvariant(a: Assumptions, s: State, x: Action)
    requires WithinTolerance(a) && Invariant(s) && Enabled(a, s, x)
    ensures Invariant(Next(a, s, x))
  {
    var s' := Next(a, s, x);
    OrdersStayOk(a, s, x);
    TurnsStayOk(a, s, x);
    forall r | r in s'.readings ensures ReadingOk(s', r) {
      if r in s.readings {
        ReadingStaysOk(a, s, x, r);
      } else {
        NewReadingOk(s, x.pool);
      }
    }
    forall p | p in s'.cash ensures s'.cash[p] >= OpenBuys(s'.orders, p) + InTurn(s', p) {
      CashStaysEnough(a, s, x, p);
    }
  }

  lemma {:induction false} ScheduleKeepsInvariant(a: Assumptions, cash: map<Pool, real>, schedule: seq<Action>)
    requires WithinTolerance(a) && After(a, cash, schedule).Some?
    requires forall p <- cash :: cash[p] >= 0.0
    ensures Invariant(After(a, cash, schedule).value)
  {
    if schedule != [] {
      var n := |schedule| - 1;
      ScheduleKeepsInvariant(a, cash, schedule[..n]);
      StepKeepsInvariant(a, After(a, cash, schedule[..n]).value, schedule[n]);
    } else {
      assert CashCoversOpenBuys(State(0, cash, [], [], map[]));
    }
  }

  /** Every schedule leaves every pool with at least what its open buys may still spend. */
  ghost predicate Safe(a: Assumptions) {
    forall cash: map<Pool, real>, schedule: seq<Action> ::
      (forall p <- cash :: cash[p] >= 0.0) && After(a, cash, schedule).Some?
      ==> CashCoversOpenBuys(After(a, cash, schedule).value)
  }

  // ---------------------------------------------------------------- beyond the tolerances

  const P := Pool("live", "t212", "a")
  const Figures: map<Pool, real> := map[P := 100.0]

  /** An order spends all the cash and ends; a later admission still goes by a figure read
      before, counting from a time too late to see that order. */
  function Overdraw(a: Assumptions): seq<Action> {
    var wait := if a.skew > CLOCK_TOLERANCE then 0 else a.undatedAge;
    var readAt := if a.skew > CLOCK_TOLERANCE then Some(a.skew as int) else None;
    [ Read(P), Admit(0, Some(100.0), Some("a"), true, Some(0), 0), Commit(("live", "t212")),
      Spend(0, 100.0), Move(0, Rejected, 0), Tick(wait),
      Admit(0, Some(100.0), Some("a"), true, readAt, wait + a.skew) ]
  }

  lemma Extend(a: Assumptions, schedule: seq<Action>, s: State, x: Action)
    requires After(a, Figures, schedule) == Some(s) && Enabled(a, s, x)
    ensures After(a, Figures, schedule + [x]) == Some(Next(a, s, x))
  {
    assert (schedule + [x])[..|schedule|] == schedule;
  }

  const Used := NewOrder(Reading(P, 100.0, 0, []), 100.0, Some("a"), true, 0)
  const Ended := Order(Used.row.(status := Rejected), P, 100.0, 0)
  const Stale := Reading(P, 100.0, 0, [])

  lemma FirstOrderIsAdmitted(a: Assumptions)
    ensures After(a, Figures, Overdraw(a)[..3]) == Some(State(0, Figures, [Used], [Stale], map[]))
  {
    hide After;
    var x := Overdraw(a);
    var t := ("live", "t212");
    var s0 := State(0, Figures, [], [], map[]);
    assert After(a, Figures, x[..0]) == Some(s0) by { NothingYet(a, x); }
    Extend(a, x[..0], s0, x[0]);
    assert SpentByAll(s0.orders) == [];
    var s1 := s0.(readings := [Stale]);
    assert Next(a, s0, x[0]) == s1 by { assert s0.readings + [Stale] == [Stale]; }
    assert x[..1] == x[..0] + [x[0]];
    Extend(a, x[..1], s1, x[1]);
    var s2 := s1.(turns := map[t := Used]);
    assert x[..2] == x[..1] + [x[1]];
    assert Rows(s1.orders) == [];
    assert Next(a, s1, x[1]) == s2;
    Extend(a, x[..2], s2, x[2]);
    assert x[..3] == x[..2] + [x[2]];
    assert Next(a, s2, x[2]) == State(0, Figures, [Used], [Stale], map[]);
  }

  lemma NothingYet(a: Assumptions, x: seq<Action>)
    ensures After(a, Figures, x[..0]) == Some(State(0, Figures, [], [], map[]))
  {}

  lemma FirstOrderSpendsAndEnds(a: Assumptions)
    ensures var x := Overdraw(a);
            After(a, Figures, x[..6]) == Some(State(x[5].seconds, map[P := 0.0], [Ended], [Stale], map[]))
  {
    hide After;
    var x := Overdraw(a);
    FirstOrderIsAdmitted(a);
    var s3 := State(0, Figures, [Used], [Stale], map[]);
    Extend(a, x[..3], s3, x[3]);
    var s4 := State(0, map[P := 0.0], [Used.(spent := 100.0)], [Stale], map[]);
    assert Next(a, s3, x[3]) == s4;
    assert x[..4] == x[..3] + [x[3]];
    Extend(a, x[..4], s4, x[4]);
    var s5 := State(0, map[P := 0.0], [Ended], [Stale], map[]);
    assert Next(a, s4, x[4]) == s5;
    assert x[..5] == x[..4] + [x[4]];
    Extend(a, x[..5], s5, x[5]);
    assert x[..6] == x[..5] + [x[5]];
  }

  lemma OverdrawHappens(a: Assumptions)
    requires !WithinTolerance(a)
    ensures After(a, Figures, Overdraw(a)).Some?
    ensures !CashCoversOpenBuys(After(a, Figures, Overdraw(a)).value)
  {
    hide After, CashPromisedElsewhere, OpenBuys;
    var x := Overdraw(a);
    FirstOrderSpendsAndEnds(a);
    var s6 := State(x[5].seconds, map[P := 0.0], [Ended], [Stale], map[]);
    Extend(a, x[..6], s6, x[6]);
    assert x[..6] + [x[6]] == x;
    var s7 := Next(a, s6, x[6]);
    var readAt := ReadingTimeOrAssumed(x[6].cashReadAt, x[6].present);
    assert Rows(s6.orders) == [Ended.row];
    OnlyOne([Ended.row], readAt);
    assert s7.turns == map[("live", "t212") := NewOrder(Stale, 100.0, Some("a"), true, x[6].present)];
    NothingOutstanding();
    assert s7.cash[P] == 0.0 && InTurn(s7, P) == 100.0;
  }

  lemma NothingOutstanding()
    ensures OpenBuys([Ended], P) == 0.0
  {
    assert OutstandingOf([Ended], P) == [0.0];
    AllZero([0.0]);
  }

  lemma OnlyOne(rows: seq<Row>, readAt: int)
    requires |rows| == 1 && Counted(rows[0], Some("live"), "t212", Some("a"), readAt) == 0.0
    ensures CashPromisedElsewhere(rows, Some("live"), "t212", Some("a"), readAt) == 0.0
  {
    var counted := seq(1, i requires 0 <= i < 1 => Counted(rows[i], Some("live"), "t212", Some("a"), readAt));
    AllZero(counted);
  }

  /** The rule is safe under every schedule exactly when clocks disagree by no more than the
      tolerance, and an undated figure is no older than it is assumed to be, allowing for the
      tolerance left over. */
  lemma SafeExactlyWithinTolerance(a: Assumptions)
    ensures Safe(a) <==> WithinTolerance(a)
  {
    if WithinTolerance(a) {
      forall cash: map<Pool, real>, schedule: seq<Action>
        | (forall p <- cash :: cash[p] >= 0.0) && After(a, cash, schedule).Some?
        ensures CashCoversOpenBuys(After(a, cash, schedule).value)
      {
        ScheduleKeepsInvariant(a, cash, schedule);
      }
    } else {
      OverdrawHappens(a);
      assert forall p <- Figures :: Figures[p] >= 0.0;
    }
  }
}
