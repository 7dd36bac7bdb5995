/** What every run of the paper account keeps. */
module PaperLedgerProofs {
  import opened Decimals
  import opened Outcomes
  import opened PaperPolicy
  import opened PaperLedger

  // ---------------------------------------------------------------- the tables

  lemma {:induction false} LatestIsARow(rows: seq<PositionRow>, ticker: string)
    requires Latest(rows, ticker).Some?
    ensures Latest(rows, ticker).value in rows && Latest(rows, ticker).value.ticker == ticker
  {
    if rows[|rows| - 1].ticker != ticker {
      LatestIsARow(rows[..|rows| - 1], ticker);
    }
  }

  /** Setting a ticker aside removes exactly its newest row from the sum. */
  lemma {:induction false} TotalWithout(rows: seq<PositionRow>, seen: set<string>, t: string, f: PositionRow -> real)
    requires t !in seen
    ensures Total(rows, seen + {t}, f)
         == Total(rows, seen, f) - (if Latest(rows, t).Some? then f(Latest(rows, t).value) else 0.0)
  {
    if rows != [] {
      var r := rows[|rows| - 1];
      var rest := rows[..|rows| - 1];
      if r.ticker == t {
        assert seen + {t} + {t} == seen + {t};
      } else {
        TotalWithout(rest, seen + {r.ticker}, t, f);
        assert seen + {t} + {r.ticker} == seen + {r.ticker} + {t};
      }
    }
  }

  /** Writing a new snapshot replaces the old one of its ticker in the sum, and no other. */
  lemma {:induction false} TotalAppend(rows: seq<PositionRow>, r: PositionRow, f: PositionRow -> real)
    ensures Total(rows + [r], {}, f)
         == Total(rows, {}, f) + f(r)
            - (if Latest(rows, r.ticker).Some? then f(Latest(rows, r.ticker).value) else 0.0)
  {
    assert (rows + [r])[..|rows|] == rows;
    TotalWithout(rows, {}, r.ticker, f);
  }

  lemma RealizedAppend(trades: seq<TradeRow>, t: TradeRow)
    ensures Realized(trades + [t]) == Realized(trades) + t.realized
  {
    assert (trades + [t])[..|trades|] == trades;
  }

  // ---------------------------------------------------------------- conservation

  /** Cash plus everything held, at cost. */
  function Book(l: Ledger): real { CashAfter(l.accounts) + Total(l.positions, {}, CostBasis) }

  /** What one accepted fill rounds away: the cash figure, the realized figure of a sell, and
      the average cost of a buy times the shares it applies to. */
  function Residue(column: Column, l: Ledger, ticker: string, side: Side, d: Decision): real
    requires d.Fill?
  {
    var previous := Latest(l.positions, ticker);
    var cash := CashAfter(l.accounts) + CashDelta(side, d);
    var avg := NewAverage(previous, side, d);
    Round8(cash) - cash
    + (if side.Buy? then Times(Owned(previous) + d.quantity, Kept(column, avg) - avg)
       else var exact := Times(d.price - avg, d.quantity) - d.fee; exact - Round8(exact))
  }

  /** What an accepted fill writes. */
  lemma FillShape(column: Column, l: Ledger, id: OrderId, ticker: string, side: Side, d: Decision)
    requires d.Fill? && ApplyFill(column, l, id, ticker, side, d).Ok?
    ensures var l' := ApplyFill(column, l, id, ticker, side, d).value;
            var previous := Latest(l.positions, ticker);
            var cash := Round8(CashAfter(l.accounts) + CashDelta(side, d));
            && l'.orders == l.orders
            && l'.positions == l.positions + [FilledRow(column, previous, id, ticker, side, d)]
            && l'.accounts == l.accounts + [AccountAfter(cash, l'.positions)]
            && CashAfter(l'.accounts) == cash >= 0.0
            && l'.trades == (if side.Sell? then l.trades + [ClosedTrade(previous, id, ticker, d)] else l.trades)
            && (side.Sell? ==> previous.Some? || d.quantity <= 0.0)
            && (side.Sell? ==> d.quantity <= Sellable(previous))
            && l'.positions[..|l.positions|] == l.positions && l'.accounts[..|l.accounts|] == l.accounts
  {
    hide FilledRow, Round8, Total, ClosedTrade, CashDelta;
  }

  function BasisBefore(previous: Option<PositionRow>): real {
    if previous.None? then 0.0 else CostBasis(previous.value)
  }

  /** The average of q shares at a and `paid` for `more` shares, once kept as `kept`. */
  lemma AverageTimesQuantity(q: real, a: real, paid: real, more: real, kept: real)
    requires q + more != 0.0
    ensures Times(q + more, kept)
         == Times(q, a) + paid + Times(q + more, kept - (Times(q, a) + paid) / (q + more))
  {
    var avg := (q * a + paid) / (q + more);
    assert (q + more) * avg == q * a + paid;
    assert (q + more) * (kept - avg) == (q + more) * kept - (q + more) * avg;
  }

  lemma LessQuantity(q: real, sold: real, a: real, price: real)
    ensures Times(q - sold, a) == Times(q, a) - Times(a, sold)
    ensures Times(price - a, sold) == Times(price, sold) - Times(a, sold)
    ensures Times(0.0, a) == 0.0 && Times(a, 0.0) == 0.0
  {}

  lemma BuyBasis(column: Column, previous: Option<PositionRow>, id: OrderId, ticker: string, d: Decision)
    requires d.Fill? && d.quantity > 0.0 && Owned(previous) >= 0.0
    ensures var avg := NewAverage(previous, Buy, d);
            CostBasis(FilledRow(column, previous, id, ticker, Buy, d))
            == BasisBefore(previous) + (Times(d.price, d.quantity) + d.fee)
               + Times(Owned(previous) + d.quantity, Kept(column, avg) - avg)
  {
    hide Times, Round8, HalfUp8;
    var a := if previous.None? then d.price else previous.value.avg;
    var avg := NewAverage(previous, Buy, d);
    AverageTimesQuantity(Owned(previous), a, Times(d.price, d.quantity) + d.fee, d.quantity, Kept(column, avg));
    LessQuantity(0.0, 0.0, a, 0.0);
  }

  lemma SellBasis(column: Column, previous: Option<PositionRow>, id: OrderId, ticker: string, d: Decision)
    requires d.Fill? && previous.Some? && Kept(column, previous.value.avg) == previous.value.avg
    ensures CostBasis(FilledRow(column, previous, id, ticker, Sell, d))
         == BasisBefore(previous) - Times(previous.value.avg, d.quantity)
  {
    hide Times, Round8, HalfUp8;
    LessQuantity(previous.value.quantity, d.quantity, previous.value.avg, d.price);
  }

  /** Conservation, exactly: an accepted fill moves the book by the realized profit it
      records plus its rounding residue, and by nothing else. */
  lemma FillConserves(column: Column, l: Ledger, id: OrderId, ticker: string, side: Side, d: Decision)
    requires d.Fill? && d.quantity > 0.0
    requires ApplyFill(column, l, id, ticker, side, d).Ok?
    requires forall r <- l.positions :: r.quantity >= 0.0 && Kept(column, r.avg) == r.avg
    ensures var l' := ApplyFill(column, l, id, ticker, side, d).value;
            Book(l') - Realized(l'.trades)
            == Book(l) - Realized(l.trades) + Residue(column, l, ticker, side, d)
  {
    hide Times, Round8, HalfUp8, Total, ApplyFill, FilledRow, AccountAfter, NewAverage, CostBasis, ClosedTrade, CashDelta;
    FillShape(column, l, id, ticker, side, d);
    var previous := Latest(l.positions, ticker);
    if previous.Some? {
      LatestIsARow(l.positions, ticker);
    }
    var row := FilledRow(column, previous, id, ticker, side, d);
    RowIsFor(column, previous, id, ticker, side, d);
    TotalAppend(l.positions, row, CostBasis);
    if side.Buy? {
      BuyBasis(column, previous, id, ticker, d);
      DeltaIs(side, d);
    } else {
      DeltaIs(side, d);
      SellBasis(column, previous, id, ticker, d);
      RealizedAppend(l.trades, ClosedTrade(previous, id, ticker, d));
      assert ClosedTrade(previous, id, ticker, d).realized
          == Round8(Times(d.price - previous.value.avg, d.quantity) - d.fee) by { ClosedRealizes(previous, id, ticker, d); }
      LessQuantity(previous.value.quantity, d.quantity, previous.value.avg, d.price);
      SellAverage(previous, d);
    }
  }

  /** The share-weighted rounding of a buy's stored average. */
  function AverageRounding(column: Column, previous: Option<PositionRow>, d: Decision): real
    requires d.Fill?
  {
    var avg := NewAverage(previous, Buy, d);
    Times(Owned(previous) + d.quantity, Kept(column, avg) - avg)
  }

  /** One fill keeps the book within a quantum exactly when its two roundings do not add up to
      more: always for a sell and while averages stay in session, and for a stored average
      whenever the fill leaves at most one share. */
  lemma FillWithinQuantumExactlyWhen(column: Column, l: Ledger, id: OrderId, ticker: string, side: Side, d: Decision)
    requires d.Fill? && d.quantity > 0.0
    requires ApplyFill(column, l, id, ticker, side, d).Ok?
    requires forall r <- l.positions :: r.quantity >= 0.0 && Kept(column, r.avg) == r.avg
    ensures var l' := ApplyFill(column, l, id, ticker, side, d).value;
            var change := (Book(l') - Realized(l'.trades)) - (Book(l) - Realized(l.trades));
            var previous := Latest(l.positions, ticker);
            var cash := CashAfter(l.accounts) + CashDelta(side, d);
            && (-QUANTUM <= change <= QUANTUM <==>
                  side.Sell? || -QUANTUM <= Round8(cash) - cash + AverageRounding(column, previous, d) <= QUANTUM)
            && (column.InSession? || Owned(previous) + d.quantity <= 1.0 ==> -QUANTUM <= change <= QUANTUM)
  {
    hide Times, Round8, HalfUp8, Total, ApplyFill, NewAverage, CashDelta, CostBasis;
    FillConserves(column, l, id, ticker, side, d);
    var previous := Latest(l.positions, ticker);
    if previous.Some? {
      LatestIsARow(l.positions, ticker);
    }
    if side.Buy? {
      var avg := NewAverage(previous, Buy, d);
      ScaledError(Owned(previous) + d.quantity, Kept(column, avg) - avg);
    }
  }

  lemma DeltaIs(side: Side, d: Decision)
    requires d.Fill?
    ensures CashDelta(side, d) == (if side.Buy? then -(Times(d.price, d.quantity) + d.fee) else Times(d.price, d.quantity) - d.fee)
  {}

  lemma ClosedRealizes(previous: Option<PositionRow>, id: OrderId, ticker: string, d: Decision)
    requires d.Fill? && previous.Some?
    ensures ClosedTrade(previous, id, ticker, d).realized == Round8(Times(d.price - previous.value.avg, d.quantity) - d.fee)
  {}

  lemma SellAverage(previous: Option<PositionRow>, d: Decision)
    requires d.Fill? && previous.Some?
    ensures NewAverage(previous, Sell, d) == previous.value.avg
  {}

  lemma RowIsFor(column: Column, previous: Option<PositionRow>, id: OrderId, ticker: string, side: Side, d: Decision)
    requires d.Fill?
    ensures var r := FilledRow(column, previous, id, ticker, side, d);
            && r.ticker == ticker && r.source == id && r.side == side && r.previous == Owned(previous)
            && r.quantity == Owned(previous) + (if side.Buy? then d.quantity else -d.quantity)
            && r.opener == Opener(previous, side, id)
  {
    hide Times, Round8, HalfUp8, NewAverage;
  }

  /** What rounding may take in one fill: half a quantum each for two figures, and for a buy
      kept in an eight-place column half a quantum for every share held. */
  function RowAllowance(column: Column, r: PositionRow): real {
    QUANTUM + (if column.Numeric8? && r.side.Buy? then HALF_QUANTUM * r.quantity else 0.0)
  }

  function Allowance(column: Column, rows: seq<PositionRow>): real {
    if rows == [] then 0.0
    else Allowance(column, rows[..|rows| - 1]) + RowAllowance(column, rows[|rows| - 1])
  }

  lemma ScaledError(q: real, e: real)
    requires q >= 0.0 && -HALF_QUANTUM <= e <= HALF_QUANTUM
    ensures -HALF_QUANTUM * q <= Times(q, e) <= HALF_QUANTUM * q
    ensures Times(q, 0.0) == 0.0
  {}

  lemma ResidueWithinAllowance(column: Column, l: Ledger, id: OrderId, ticker: string, side: Side, d: Decision)
    requires d.Fill? && d.quantity > 0.0 && Owned(Latest(l.positions, ticker)) >= 0.0
    ensures var a := RowAllowance(column, FilledRow(column, Latest(l.positions, ticker), id, ticker, side, d));
            -a <= Residue(column, l, ticker, side, d) <= a
  {
    hide Times, Round8, HalfUp8;
    var previous := Latest(l.positions, ticker);
    var avg := NewAverage(previous, side, d);
    if side.Buy? {
      ScaledError(Owned(previous) + d.quantity, Kept(column, avg) - avg);
    }
  }

  lemma HalfUpIsIdempotent(x: real)
    requires x >= 0.0
    ensures HalfUp8(HalfUp8(x)) == HalfUp8(x)
  {
    var n := (x * 100000000.0 + 0.5).Floor;
    assert HalfUp8(x) == n as real / 100000000.0;
    assert (HalfUp8(x) * 100000000.0 + 0.5).Floor == n;
  }

  /** A row's unrealized figure is its market value less its cost, up to its rounding. */
  ghost predicate Marked(column: Column, r: PositionRow) {
    && Kept(column, r.avg) == r.avg
    && -RowAllowance(column, r) <= r.unrealized - (MarketValue(r) - CostBasis(r)) <= RowAllowance(column, r)
  }

  /** The state of the book in every reachable ledger. */
  ghost predicate Conserved(column: Column, l: Ledger) {
    var drift := Book(l) - STARTING_CASH - Realized(l.trades);
    && (forall r <- l.positions :: Marked(column, r))
    && (l.accounts != [] ==> l.accounts[|l.accounts| - 1] == AccountAfter(CashAfter(l.accounts), l.positions))
    && -Allowance(column, l.positions) <= drift <= Allowance(column, l.positions)
  }

  // ---------------------------------------------------------------- one fill keeps every table sound

  ghost predicate GoodFill(d: Decision) {
    d.Fill? && d.quantity > 0.0 && d.price > 0.0 && d.fee >= 0.0
  }

  ghost predicate TablesSound(column: Column, l: Ledger) {
    && |l.positions| == |l.accounts|
    && 0.0 <= CashAfter(l.accounts) && OnGrid8(CashAfter(l.accounts))
    && (forall r <- l.positions :: RowOk(r) && r.source in l.orders)
    && Conserved(column, l)
    && (forall ticker: string :: OpenerAgrees(l.positions, ticker))
  }

  lemma AverageIsNotNegative(q: real, a: real, paid: real, more: real)
    requires q >= 0.0 && a >= 0.0 && paid >= 0.0 && more > 0.0
    ensures (Times(q, a) + paid) / (q + more) >= 0.0
  {}

  lemma ProductIsPositive(a: real, b: real)
    requires a > 0.0 && b > 0.0
    ensures Times(a, b) > 0.0
  {}

  lemma RowStaysOk(column: Column, l: Ledger, id: OrderId, ticker: string, side: Side, d: Decision)
    requires GoodFill(d) && ApplyFill(column, l, id, ticker, side, d).Ok?
    requires Latest(l.positions, ticker).Some? ==>
               RowOk(Latest(l.positions, ticker).value)
               && Kept(column, Latest(l.positions, ticker).value.avg) == Latest(l.positions, ticker).value.avg
    ensures var r := FilledRow(column, Latest(l.positions, ticker), id, ticker, side, d);
            RowOk(r) && Marked(column, r)
  {
    hide Times, Round8, Total;
    var previous := Latest(l.positions, ticker);
    var avg := NewAverage(previous, side, d);
    if side.Buy? {
      ProductIsPositive(d.price, d.quantity);
      AverageIsNotNegative(Owned(previous), if previous.None? then d.price else previous.value.avg,
                           Times(d.price, d.quantity) + d.fee, d.quantity);
      HalfUpIsIdempotent(avg);
    }
    var q := Owned(previous) + (if side.Buy? then d.quantity else -d.quantity);
    MarkSplits(q, d.quote, avg, Kept(column, avg));
    ScaledError(q, Kept(column, avg) - avg);
  }

  lemma MarkSplits(q: real, quote: real, avg: real, kept: real)
    ensures Times(quote - avg, q) == Times(q, quote) - Times(q, kept) + Times(q, kept - avg)
  {}

  lemma OpenersAppend(rows: seq<PositionRow>, r: PositionRow, ticker: string)
    ensures (rows + [r])[..|rows|] == rows
    ensures Latest(rows + [r], ticker) == if r.ticker == ticker then Some(r) else Latest(rows, ticker)
  {
    assert (rows + [r])[..|rows|] == rows;
  }

  /** A fill names the opening order of what is then held exactly when one order bought it
      all; the closing trade of a sell carries the same name. */
  lemma OpenerStays(column: Column, l: Ledger, id: OrderId, ticker: string, side: Side, d: Decision, t: string)
    requires GoodFill(d) && ApplyFill(column, l, id, ticker, side, d).Ok?
    requires forall r <- l.positions :: RowOk(r)
    requires OpenerAgrees(l.positions, ticker) && OpenerAgrees(l.positions, t)
    ensures OpenerAgrees(ApplyFill(column, l, id, ticker, side, d).value.positions, t)
  {
    hide ApplyFill, FilledRow, Round8, AccountAfter;
    FillShape(column, l, id, ticker, side, d);
    var previous := Latest(l.positions, ticker);
    RowIsFor(column, previous, id, ticker, side, d);
    if previous.Some? {
      LatestIsARow(l.positions, ticker);
    }
    OpenersAppend(l.positions, FilledRow(column, previous, id, ticker, side, d), t);
  }

  lemma BookStaysConserved(column: Column, l: Ledger, id: OrderId, ticker: string, side: Side, d: Decision)
    requires GoodFill(d) && ApplyFill(column, l, id, ticker, side, d).Ok?
    requires Conserved(column, l) && forall r <- l.positions :: RowOk(r)
    ensures Conserved(column, ApplyFill(column, l, id, ticker, side, d).value)
  {
    hide ApplyFill, FilledRow, Residue, RowAllowance, Round8, CashDelta, AccountAfter, Book, Marked, Realized, RowOk, Kept;
    var previous := Latest(l.positions, ticker);
    var l' := ApplyFill(column, l, id, ticker, side, d).value;
    FillShape(column, l, id, ticker, side, d);
    forall r | r in l.positions ensures r.quantity >= 0.0 {
      OwnedIsNotNegative(r);
    }
    forall r | r in l.positions ensures Kept(column, r.avg) == r.avg {
      MarkedIsKept(column, r);
    }
    if previous.Some? {
      LatestIsARow(l.positions, ticker);
    }
    RowStaysOk(column, l, id, ticker, side, d);
    FillConserves(column, l, id, ticker, side, d);
    ResidueWithinAllowance(column, l, id, ticker, side, d);
    AllowanceAppend(column, l.positions, FilledRow(column, previous, id, ticker, side, d));
  }

  lemma AllowanceAppend(column: Column, rows: seq<PositionRow>, r: PositionRow)
    ensures Allowance(column, rows + [r]) == Allowance(column, rows) + RowAllowance(column, r)
  {
    hide RowAllowance;
    assert (rows + [r])[..|rows|] == rows;
  }

  lemma OwnedIsNotNegative(r: PositionRow)
    requires RowOk(r)
    ensures r.quantity >= 0.0
  {}

  lemma MarkedIsKept(column: Column, r: PositionRow)
    requires Marked(column, r)
    ensures Kept(column, r.avg) == r.avg
  {}

  lemma TablesStaySound(column: Column, l: Ledger, id: OrderId, ticker: string, side: Side, d: Decision)
    requires GoodFill(d) && ApplyFill(column, l, id, ticker, side, d).Ok?
    requires TablesSound(column, l) && id in l.orders
    ensures TablesSound(column, ApplyFill(column, l, id, ticker, side, d).value)
  {
    hide ApplyFill, FilledRow, Round8, CashDelta, AccountAfter, Conserved, RowOk, OpenerAgrees;
    var l' := ApplyFill(column, l, id, ticker, side, d).value;
    var previous := Latest(l.positions, ticker);
    FillShape(column, l, id, ticker, side, d);
    RowIsFor(column, previous, id, ticker, side, d);
    if previous.Some? {
      LatestIsARow(l.positions, ticker);
      ConservedIsKept(column, l, previous.value);
    }
    RoundingLandsOnGrid(CashAfter(l.accounts) + CashDelta(side, d));
    RowStaysOk(column, l, id, ticker, side, d);
    BookStaysConserved(column, l, id, ticker, side, d);
    forall t: string ensures OpenerAgrees(l'.positions, t) {
      OpenerStays(column, l, id, ticker, side, d, t);
    }
  }

  lemma ConservedIsKept(column: Column, l: Ledger, r: PositionRow)
    requires Conserved(column, l) && r in l.positions
    ensures Kept(column, r.avg) == r.avg
  {}

  // ---------------------------------------------------------------- orders against the tables

  lemma {:induction false} NoFillsYet(rows: seq<PositionRow>, accounts: seq<AccountRow>, id: OrderId)
    requires |rows| == |accounts| && forall r <- rows :: r.source != id
    ensures Increments(rows, id) == 0.0 && Fills(rows, id) == 0 && CashTaken(rows, accounts, id) == 0.0
  {
    if rows != [] {
      var n := |rows| - 1;
      assert rows[n] in rows;
      NoFillsYet(rows[..n], accounts[..n], id);
    }
  }

  /** How the three per-order sums change when a fill of order `id` is written. */
  lemma FillAddsToItsOrder(column: Column, l: Ledger, id: OrderId, ticker: string, side: Side, d: Decision, other: OrderId)
    requires GoodFill(d) && |l.positions| == |l.accounts|
    requires ApplyFill(column, l, id, ticker, side, d).Ok?
    ensures var l' := ApplyFill(column, l, id, ticker, side, d).value;
            var mine := other == id;
            && |l'.positions| == |l'.accounts|
            && Increments(l'.positions, other) == Increments(l.positions, other) + (if mine then d.quantity else 0.0)
            && Fills(l'.positions, other) == Fills(l.positions, other) + (if mine then 1 else 0)
            && CashTaken(l'.positions, l'.accounts, other)
               == CashTaken(l.positions, l.accounts, other)
                  + (if mine then CashAfter(l.accounts) - CashAfter(l'.accounts) else 0.0)
  {
    hide ApplyFill, FilledRow, AccountAfter, Round8, CashDelta;
    FillShape(column, l, id, ticker, side, d);
    RowIsFor(column, Latest(l.positions, ticker), id, ticker, side, d);
  }

  lemma OrdersStayAgreed(column: Column, l: Ledger, l0: Ledger, id: OrderId, d: Decision, o: Order)
    requires GoodFill(d) && l.orders.Keys == l0.orders.Keys + {id}
    requires l.positions == l0.positions && l.accounts == l0.accounts && |l.positions| == |l.accounts|
    requires forall other <- l0.orders :: other != id ==> l.orders[other] == l0.orders[other] && OrderAgrees(l0, other)
    requires ApplyFill(column, l, id, o.ticker, o.side, d).Ok?
    requires OrderOk(o) && o.filled == Increments(l.positions, id) + d.quantity
    requires o.side.Buy? ==>
               var rest := o.cashUsed.value - Round8(Times(d.price, d.quantity) + d.fee)
                           - CashTaken(l.positions, l.accounts, id);
               var n := Fills(l.positions, id) as real;
               -QUANTUM * n <= rest <= QUANTUM * n
    ensures var l' := ApplyFill(column, l, id, o.ticker, o.side, d).value.(orders := l.orders[id := o]);
            && |l'.positions| == |l'.accounts|
            && forall other <- l'.orders :: OrderAgrees(l', other)
  {
    hide ApplyFill, Increments, Fills, CashTaken, Round8, Times, AccountAfter, FilledRow;
    FillShape(column, l, id, o.ticker, o.side, d);
    var l' := ApplyFill(column, l, id, o.ticker, o.side, d).value.(orders := l.orders[id := o]);
    FillAddsToItsOrder(column, l, id, o.ticker, o.side, d, id);
    forall other <- l'.orders ensures OrderAgrees(l', other) {
      FillAddsToItsOrder(column, l, id, o.ticker, o.side, d, other);
      if other != id {
        assert OrderAgrees(l0, other);
      }
    }
  }

  ghost predicate Sound(column: Column, l: Ledger) {
    TablesSound(column, l) && forall id <- l.orders :: OrderAgrees(l, id)
  }

  lemma PolicyGivesGoodFill(side: Side, quantity: real, price: real, profile: Profile)
    requires Evaluate(side, quantity, price, profile).Fill?
    ensures GoodFill(Evaluate(side, quantity, price, profile))
  {
    hide Round8, Trunc8, Times, Fee, FillPrice;
    FillContract(side, quantity, price, profile);
  }

  lemma AskedIsOnGrid(body: Body)
    ensures OnGrid8(AskedQuantity(body)) && Trunc8(AskedQuantity(body)) == AskedQuantity(body)
  {
    assert 0.0 == Units8(0);
    if body.quantity.Some? {
      RoundingLandsOnGrid(body.quantity.value);
    } else if body.notional.Some? && body.estimatedPrice > 0.0 {
      RoundingLandsOnGrid(body.notional.value / body.estimatedPrice);
    }
    RoundingFixesGrid(AskedQuantity(body));
  }

  lemma RecordingKeepsTables(column: Column, l: Ledger, id: OrderId, o: Order)
    requires TablesSound(column, l)
    ensures TablesSound(column, l.(orders := l.orders[id := o]))
  {
    hide Total, Round8, OpenerAgrees, Allowance, Realized, Marked;
  }

  lemma RejectionKeepsSound(column: Column, l: Ledger, id: OrderId, o: Order)
    requires Sound(column, l) && id !in l.orders && o.status.OrderRejected? && OrderOk(o)
    requires o.cashUsed.Some? ==> o.cashUsed.value == 0.0
    ensures Sound(column, l.(orders := l.orders[id := o]))
  {
    hide TablesSound, Increments, Fills, CashTaken;
    RecordingKeepsTables(column, l, id, o);
    assert |l.positions| == |l.accounts| by { TablesAlign(column, l); }
    NoFillsYet(l.positions, l.accounts, id) by { SourcesAreOrders(column, l); }
    var l' := l.(orders := l.orders[id := o]);
    forall other <- l'.orders ensures OrderAgrees(l', other) {
      if other != id {
        assert OrderAgrees(l, other);
      }
    }
  }

  lemma TablesAlign(column: Column, l: Ledger)
    requires TablesSound(column, l)
    ensures |l.positions| == |l.accounts|
  {}

  lemma SourcesAreOrders(column: Column, l: Ledger)
    requires TablesSound(column, l)
    ensures forall r <- l.positions :: r.source in l.orders
  {}

  lemma ExecuteKeepsSound(column: Column, l: Ledger, id: OrderId, body: Body, risk: Risk)
    requires Sound(column, l) && Execute(column, l, id, body, risk).Ok?
    ensures Sound(column, Execute(column, l, id, body, risk).value)
  {
    hide Times, Round8, Trunc8, Evaluate, ApplyFill, RiskPrice, AskedQuantity, Marked, RowOk, OpenerAgrees, Book, Allowance, OnGrid8;
    var quantity := AskedQuantity(body);
    var d := Evaluate(body.side, quantity, body.estimatedPrice, body.profile);
    var o := NewOrder(body, quantity, d);
    var recorded := l.(orders := l.orders[id := o]);
    NoFillsYet(l.positions, l.accounts, id);
    AskedIsOnGrid(body);
    if d.Fill? {
      PolicyGivesGoodFill(body.side, quantity, body.estimatedPrice, body.profile);
      FillContract(body.side, quantity, body.estimatedPrice, body.profile);
      RecordingKeepsTables(column, l, id, o);
      TablesStaySound(column, recorded, id, body.ticker, body.side, d);
      OrdersStayAgreed(column, recorded, l, id, d, o);
      assert recorded.orders[id := o] == recorded.orders;
      ApplyFillKeepsOrders(column, recorded, id, body.ticker, body.side, d);
    } else {
      RejectionKeepsSound(column, l, id, o);
    }
  }

  lemma ApplyFillKeepsOrders(column: Column, l: Ledger, id: OrderId, ticker: string, side: Side, d: Decision)
    requires d.Fill? && ApplyFill(column, l, id, ticker, side, d).Ok?
    ensures ApplyFill(column, l, id, ticker, side, d).value.orders == l.orders
  {}

  lemma FollowUpKeepsSound(column: Column, l: Ledger, id: OrderId, asked: real, price: real, halted: Option<bool>)
    requires Sound(column, l) && FillPartial(column, l, id, asked, price, halted).Ok?
    ensures Sound(column, FillPartial(column, l, id, asked, price, halted).value)
  {
    hide Times, Round8, Trunc8, HalfUp8, Total, NewAverage, Evaluate, ApplyFill;
    var o := l.orders[id];
    assert OrderAgrees(l, id);
    var d := Evaluate(o.side, Trunc8(asked), price, Standard);
    PolicyGivesGoodFill(o.side, Trunc8(asked), price, Standard);
    TablesStaySound(column, l, id, o.ticker, o.side, d);
    OrdersStayAgreed(column, l, l, id, d, AfterFollowUp(o, d));
    ApplyFillKeepsOrders(column, l, id, o.ticker, o.side, d);
  }

  lemma StepKeepsSound(column: Column, l: Ledger, c: Command)
    requires Sound(column, l)
    ensures Sound(column, Step(column, l, c))
  {
    hide Execute, FillPartial, Sound;
    if Answer(column, l, c).Ok? {
      match c
      case Place(id, body, risk) => ExecuteKeepsSound(column, l, id, body, risk);
      case FollowUp(id, quantity, price, halted) => FollowUpKeepsSound(column, l, id, quantity, price, halted);
    }
  }

  lemma {:induction false} RunIsSound(column: Column, commands: seq<Command>)
    ensures Sound(column, Run(column, commands))
  {
    if commands == [] {
      assert STARTING_CASH == Units8(10000000000000);
    } else {
      RunIsSound(column, commands[..|commands| - 1]);
      StepKeepsSound(column, Run(column, commands[..|commands| - 1]), commands[|commands| - 1]);
    }
  }

  // ---------------------------------------------------------------- main results

  lemma {:induction false} AllowanceInSession(rows: seq<PositionRow>)
    ensures Allowance(InSession, rows) == QUANTUM * |rows| as real
  {
    if rows != [] {
      AllowanceInSession(rows[..|rows| - 1]);
    }
  }

  /** What an accepted request fills. */
  function FillOf(column: Column, l: Ledger, c: Command): Option<(string, Side, Decision)> {
    if Answer(column, l, c).Refused? then None
    else
      match c
      case Place(_, body, _) =>
        var d := Evaluate(body.side, AskedQuantity(body), body.estimatedPrice, body.profile);
        if d.Fill? then Some((body.ticker, body.side, d)) else None
      case FollowUp(id, quantity, price, _) =>
        if id !in l.orders then None
        else
          var o := l.orders[id];
          var d := Evaluate(o.side, Trunc8(quantity), price, Standard);
          if d.Fill? then Some((o.ticker, o.side, d)) else None
  }

  /** What all the fills of a sequence of requests round away. */
  function Residues(column: Column, commands: seq<Command>): real {
    if commands == [] then 0.0
    else
      var n := |commands| - 1;
      var l := Run(column, commands[..n]);
      var fill := FillOf(column, l, commands[n]);
      Residues(column, commands[..n])
      + (if fill.Some? && fill.value.2.Fill? then Residue(column, l, fill.value.0, fill.value.1, fill.value.2) else 0.0)
  }

  lemma StepConserves(column: Column, l: Ledger, c: Command)
    requires Sound(column, l)
    ensures var l' := Step(column, l, c);
            var fill := FillOf(column, l, c);
            && (fill.Some? ==> fill.value.2.Fill?)
            && Book(l') - Realized(l'.trades)
               == Book(l) - Realized(l.trades)
                  + (if fill.Some? then Residue(column, l, fill.value.0, fill.value.1, fill.value.2) else 0.0)
  {
    hide Times, Round8, Trunc8, HalfUp8, Total, ApplyFill, Evaluate, Residue, AskedQuantity, RiskPrice, NewAverage, Realized;
    KeptRows(column, l);
    if Answer(column, l, c).Ok? {
      match c
      case Place(id, body, _) =>
        var quantity := AskedQuantity(body);
        var d := Evaluate(body.side, quantity, body.estimatedPrice, body.profile);
        if d.Fill? {
          PolicyGivesGoodFill(body.side, quantity, body.estimatedPrice, body.profile);
          var recorded := l.(orders := l.orders[id := NewOrder(body, quantity, d)]);
          FillConserves(column, recorded, id, body.ticker, body.side, d);
          ResidueIgnoresOrders(column, l, recorded, body.ticker, body.side, d);
        }
      case FollowUp(id, asked, price, _) =>
        var o := l.orders[id];
        var d := Evaluate(o.side, Trunc8(asked), price, Standard);
        PolicyGivesGoodFill(o.side, Trunc8(asked), price, Standard);
        FillConserves(column, l, id, o.ticker, o.side, d);
    }
  }

  lemma ResidueIgnoresOrders(column: Column, l: Ledger, l': Ledger, ticker: string, side: Side, d: Decision)
    requires d.Fill? && l'.positions == l.positions && l'.accounts == l.accounts
    ensures Residue(column, l', ticker, side, d) == Residue(column, l, ticker, side, d)
  {
    hide Times, Round8, HalfUp8, NewAverage;
  }

  lemma KeptRows(column: Column, l: Ledger)
    requires Sound(column, l)
    ensures forall r <- l.positions :: r.quantity >= 0.0 && Kept(column, r.avg) == r.avg
  {
    hide OpenerAgrees, OrderAgrees, Total, Times, Round8;
    forall r | r in l.positions ensures r.quantity >= 0.0 && Kept(column, r.avg) == r.avg {
      assert RowOk(r) && Marked(column, r);
    }
  }

  /** The drift of the book over any run is exactly the sum of what its fills rounded away. */
  lemma {:induction false} DriftIsSumOfResidues(column: Column, commands: seq<Command>)
    ensures var l := Run(column, commands);
            Book(l) - STARTING_CASH - Realized(l.trades) == Residues(column, commands)
  {
    hide Step, Sound, Residue, FillOf, Realized, Book;
    if commands == [] {
      NothingBooked();
    } else {
      var n := |commands| - 1;
      DriftIsSumOfResidues(column, commands[..n]);
      RunIsSound(column, commands[..n]);
      StepConserves(column, Run(column, commands[..n]), commands[n]);
    }
  }

  lemma NothingBooked()
    ensures Book(EmptyLedger) == STARTING_CASH && Realized(EmptyLedger.trades) == 0.0
  {}

  /** Cash plus positions at cost equals starting cash plus realized profit, after any
      sequence of requests: within one quantum a fill while averages stay in session, and
      within half a quantum more per share held after a buy once they are kept in their
      eight-place column. Cash is never negative and no row offers more than it holds. */
  lemma BookIsConserved(column: Column, commands: seq<Command>)
    ensures var l := Run(column, commands);
            var drift := Book(l) - STARTING_CASH - Realized(l.trades);
            && -Allowance(column, l.positions) <= drift <= Allowance(column, l.positions)
            && (column.InSession? ==> -QUANTUM * |l.positions| as real <= drift <= QUANTUM * |l.positions| as real)
            && CashAfter(l.accounts) >= 0.0
            && forall t: string :: 0.0 <= Sellable(Latest(l.positions, t)) <= Owned(Latest(l.positions, t))
  {
    var l := Run(column, commands);
    RunIsSound(column, commands);
    AllowanceInSession(l.positions);
    forall t: string ensures 0.0 <= Sellable(Latest(l.positions, t)) <= Owned(Latest(l.positions, t)) {
      if Latest(l.positions, t).Some? {
        LatestIsARow(l.positions, t);
      }
    }
  }

  /** One quantum a fill is not kept once the average goes through its column: buying a
      million shares at a cent leaves the book 0.002 short after that one fill. */
  lemma StoredAverageDrifts()
    ensures var l := Run(Numeric8, [Place(0, Body("A", Buy, Some(1000000.0), None, 0.01, Standard), Risk(true, true))]);
            |l.positions| == 1 && Book(l) - STARTING_CASH - Realized(l.trades) == -0.002
  {
    var body := Body("A", Buy, Some(1000000.0), None, 0.01, Standard);
    var c := Place(0, body, Risk(true, true));
    assert Run(Numeric8, [c]) == Step(Numeric8, EmptyLedger, c) by {
      assert [c][..0] == [];
    }
    var d := Fill(true, 0.01, 1000000.0, 0.01001, 2.002);
    MillionAtACent();
    assert NewAverage(None, Buy, d) == 0.010012002;
    assert HalfUp8(0.010012002) == 0.010012;
    assert CashAfter(EmptyLedger.accounts) + CashDelta(Buy, d) == 89987.998;
    RoundingFixesGridAt(8998799800000);
    var l := ApplyFill(Numeric8, EmptyLedger.(orders := map[0 := NewOrder(body, 1000000.0, d)]), 0, "A", Buy, d).value;
    assert l.positions[..0] == [];
    assert Total(l.positions, {}, CostBasis) == CostBasis(l.positions[0]);
  }

  lemma MillionAtACent()
    ensures Trunc8(1000000.0) == 1000000.0
    ensures Evaluate(Buy, 1000000.0, 0.01, Standard) == Fill(true, 0.01, 1000000.0, 0.01001, 2.002)
  {
    RoundingFixesGridAt(100000000000000);
    RoundingFixesGridAt(1000000);
    RoundingFixesGridAt(1001000);
    RoundingFixesGridAt(200200000);
  }

  lemma RoundingFixesGridAt(n: int)
    ensures Round8(Units8(n)) == Units8(n) && Trunc8(Units8(n)) == Units8(n)
  {
    RoundingFixesGrid(Units8(n));
  }

  /** Over the newest rows, market value less cost is the unrealized profit, up to the
      allowance of all rows. */
  lemma {:induction false} UnrealizedAgrees(column: Column, rows: seq<PositionRow>, seen: set<string>)
    requires forall r <- rows :: RowOk(r) && Marked(column, r)
    ensures var gap := Total(rows, seen, Unrealized)
                       - (Total(rows, seen, MarketValue) - Total(rows, seen, CostBasis));
            -Allowance(column, rows) <= gap <= Allowance(column, rows)
  {
    hide Times;
    if rows != [] {
      var r := rows[|rows| - 1];
      assert r in rows;
      UnrealizedAgrees(column, rows[..|rows| - 1], seen + {r.ticker});
    }
  }

  lemma AccountFiguresAreExact(cash: real, marked: real)
    requires OnGrid8(cash)
    ensures var total := Round8(cash + Round8(marked));
            Round8(total - STARTING_CASH) == cash + Round8(marked) - STARTING_CASH
  {
    hide Round8;
    RoundingLandsOnGrid(marked);
    GridSum(cash, Round8(marked));
    RoundingFixesGrid(cash + Round8(marked));
    assert STARTING_CASH == Units8(10000000000000);
    GridSum(cash + Round8(marked), STARTING_CASH);
    RoundingFixesGrid(cash + Round8(marked) - STARTING_CASH);
  }

  lemma ResultOf(column: Column, l: Ledger)
    requires Conserved(column, l) && OnGrid8(CashAfter(l.accounts)) && l.accounts != []
    requires forall r <- l.positions :: RowOk(r)
    ensures var gap := l.accounts[|l.accounts| - 1].result
                       - (Realized(l.trades) + Total(l.positions, {}, Unrealized));
            var a := 2.0 * Allowance(column, l.positions) + HALF_QUANTUM;
            -a <= gap <= a
  {
    hide Total, Round8, Times, OnGrid8, Allowance, Realized, Marked, RowOk;
    UnrealizedAgrees(column, l.positions, {});
    AccountFiguresAreExact(CashAfter(l.accounts), Total(l.positions, {}, MarketValue));
  }

  /** The account's reported result is realized plus unrealized profit, up to rounding. */
  lemma ResultIsProfit(column: Column, commands: seq<Command>)
    ensures var l := Run(column, commands);
            l.accounts != [] ==>
              var gap := l.accounts[|l.accounts| - 1].result
                         - (Realized(l.trades) + Total(l.positions, {}, Unrealized));
              var a := 2.0 * Allowance(column, l.positions) + HALF_QUANTUM;
              -a <= gap <= a
  {
    hide Total, Run, Allowance, Conserved, OpenerAgrees, OrderAgrees, RowOk;
    RunIsSound(column, commands);
    if Run(column, commands).accounts != [] {
      ResultOf(column, Run(column, commands));
    }
  }

  /** Every order agrees with the fills written for it: it holds the sum of their shares,
      never more than its size, is filled exactly when nothing remains, and a buy states the
      cash that left the account to within one quantum a fill. */
  lemma OrdersReconcile(column: Column, commands: seq<Command>, id: OrderId)
    requires id in Run(column, commands).orders
    ensures var l := Run(column, commands);
            var o := l.orders[id];
            && o.filled == Increments(l.positions, id) <= o.quantity
            && (o.status.Filled? <==> Remaining(o) == 0.0)
            && (o.status.OrderRejected? <==> o.filled == 0.0)
            && |l.positions| == |l.accounts|
            && (o.side.Buy? ==>
                  var n := QUANTUM * Fills(l.positions, id) as real;
                  o.cashUsed.Some?
                  && -n <= o.cashUsed.value - CashTaken(l.positions, l.accounts, id) <= n)
  {
    RunIsSound(column, commands);
    assert OrderAgrees(Run(column, commands), id);
  }

  /** When the cost of a buy falls exactly between two quanta. */
  predicate Tie(cost: real) {
    cost * 100000000.0 - (cost * 100000000.0).Floor as real == 0.5
  }

  /** The cash a buy records and the cash it takes are rounded separately: the same figure
      exactly when the cost is not a tie or the balance is an even number of quanta. */
  lemma RoundedApart(units: int, cost: real)
    ensures var cash := Units8(units);
            cash - Round8(cash - cost) == Round8(cost) <==> (!Tie(cost) || units % 2 == 0)
  {
    HalfEvenShift(units, cost * 100000000.0);
    assert (Units8(units) - cost) * 100000000.0 == units as real - cost * 100000000.0;
  }

  /** In every reachable ledger, a buy that is filled when placed records exactly the cash it
      takes if and only if its cost is not a tie or the balance is an even number of quanta. */
  lemma CashUsedIsCashTaken(column: Column, commands: seq<Command>, id: OrderId, body: Body, risk: Risk, units: int)
    requires var l := Run(column, commands);
             && body.side.Buy? && CashAfter(l.accounts) == Units8(units)
             && Execute(column, l, id, body, risk).Ok?
             && Evaluate(Buy, AskedQuantity(body), body.estimatedPrice, body.profile).Fill?
    ensures var l := Run(column, commands);
            var l' := Execute(column, l, id, body, risk).value;
            var d := Evaluate(Buy, AskedQuantity(body), body.estimatedPrice, body.profile);
            && id in l'.orders && l'.orders[id].cashUsed.Some?
            && (CashAfter(l.accounts) - CashAfter(l'.accounts) == l'.orders[id].cashUsed.value
                <==> (!Tie(Times(d.price, d.quantity) + d.fee) || units % 2 == 0))
  {
    hide Times, Round8, Trunc8, Total, Evaluate, RiskPrice, AskedQuantity, Run, ApplyFill, Tie;
    var l := Run(column, commands);
    var quantity := AskedQuantity(body);
    var d := Evaluate(Buy, quantity, body.estimatedPrice, body.profile);
    var recorded := l.(orders := l.orders[id := NewOrder(body, quantity, d)]);
    FillShape(column, recorded, id, body.ticker, Buy, d);
    RoundedApart(units, Times(d.price, d.quantity) + d.fee);
  }

  const OddCashBuy := Body("A", Buy, Some(0.00000001), None, 1.0, Standard)
  const TiedBuy := Body("A", Buy, Some(0.000005), None, 1.0, Standard)
  const OddCashFill := Fill(true, 1.0, 0.00000001, 1.001, 0.01)
  const TiedFill := Fill(true, 1.0, 0.000005, 1.001, 0.01)

  lemma TwoFills()
    ensures AskedQuantity(OddCashBuy) == 0.00000001 && Evaluate(Buy, 0.00000001, 1.0, Standard) == OddCashFill
    ensures AskedQuantity(TiedBuy) == 0.000005 && Evaluate(Buy, 0.000005, 1.0, Standard) == TiedFill
  {
    hide Round8, Trunc8;
    RoundingFixesGridAt(1);
    RoundingFixesGridAt(500);
    RoundingFixesGridAt(100000000);
    RoundingFixesGridAt(100100000);
    RoundingFixesGridAt(1000000);
  }

  lemma TwoRoundings()
    ensures Round8(100000.0 - 0.01000001001) == 99999.98999999 && Round8(0.01000001001) == 0.01000001
    ensures Round8(99999.98999999 - 0.010005005) == 99999.97999498 && Round8(0.010005005) == 0.010005
  {
    assert ((100000.0 - 0.01000001001) * 100000000.0).Floor == 9999998999998;
    assert ((99999.98999999 - 0.010005005) * 100000000.0).Floor == 9999997999498;
    assert (0.01000001001 * 100000000.0).Floor == 1000001;
    assert (0.010005005 * 100000000.0).Floor == 1000500;
  }

  /** A standard buy that passes its guards. */
  lemma BuyGoesThrough(column: Column, l: Ledger, id: OrderId, body: Body, d: Decision)
    requires body.side.Buy? && id !in l.orders && d.Fill? && d.whole && 0.0 < d.quantity == AskedQuantity(body) <= 1.0
    requires Evaluate(Buy, d.quantity, body.estimatedPrice, body.profile) == d
    requires var cost := Times(d.price, d.quantity) + d.fee;
             cost <= CashAfter(l.accounts) && Round8(CashAfter(l.accounts) - cost) >= 0.0
    ensures var cost := Times(d.price, d.quantity) + d.fee;
            var r := Execute(column, l, id, body, Risk(true, true));
            && r.Ok? && r.value.orders.Keys == l.orders.Keys + {id}
            && CashAfter(r.value.accounts) == Round8(CashAfter(l.accounts) - cost)
            && r.value.orders[id].cashUsed == Some(Round8(cost))
  {
    hide AskedQuantity, Evaluate, Round8, Times, FilledRow, AccountAfter;
    var cost := Times(d.price, d.quantity) + d.fee;
    ShareOfCost(d.quantity, cost);
    var recorded := l.(orders := l.orders[id := NewOrder(body, d.quantity, d)]);
    assert CashAfter(recorded.accounts) + CashDelta(Buy, d) == CashAfter(l.accounts) - cost;
    assert ApplyFill(column, recorded, id, body.ticker, Buy, d).Ok?;
    FillShape(column, recorded, id, body.ticker, Buy, d);
  }

  lemma ShareOfCost(quantity: real, cost: real)
    requires quantity > 0.0
    ensures Times(quantity, cost / quantity) == cost
  {}

  /** The two figures do come apart: after a first buy that leaves an odd number of quanta, a
      second whose cost is a tie records one quantum less than it takes. */
  lemma CashUsedComesApart(column: Column)
    ensures var l := Run(column, [Place(0, OddCashBuy, Risk(true, true))]);
            var l' := Run(column, [Place(0, OddCashBuy, Risk(true, true)), Place(1, TiedBuy, Risk(true, true))]);
            && CashAfter(l.accounts) == 99999.98999999
            && 1 in l'.orders && l'.orders[1].cashUsed == Some(0.010005)
            && CashAfter(l.accounts) - CashAfter(l'.accounts) == 0.010005 + QUANTUM
  {
    hide Execute, AskedQuantity, Evaluate, Round8;
    var first := Place(0, OddCashBuy, Risk(true, true));
    var second := Place(1, TiedBuy, Risk(true, true));
    TwoFills();
    TwoRoundings();
    var l := Run(column, [first]);
    assert [first][..0] == [] && [first, second][..1] == [first];
    assert Run(column, []) == EmptyLedger;
    BuyGoesThrough(column, EmptyLedger, 0, OddCashBuy, OddCashFill);
    assert l == Step(column, EmptyLedger, first);
    BuyGoesThrough(column, l, 1, TiedBuy, TiedFill);
    assert Run(column, [first, second]) == Step(column, l, second);
  }

  /** The balance always is a whole number of quanta. */
  lemma BalanceIsWholeQuanta(column: Column, commands: seq<Command>)
    ensures OnGrid8(CashAfter(Run(column, commands).accounts))
  {
    hide Run, Conserved, OpenerAgrees, OrderAgrees;
    RunIsSound(column, commands);
  }

  /** An open position names an opening order exactly when every buy since it was last empty
      came from that order. */
  lemma OpenPositionNamesItsBuyer(column: Column, commands: seq<Command>, ticker: string, id: OrderId)
    ensures var rows := Run(column, commands).positions;
            var p := Latest(rows, ticker);
            p.Some? && p.value.quantity > 0.0 ==>
              (p.value.opener == Some(id) <==> Openers(rows, ticker) == {id})
  {
    RunIsSound(column, commands);
    assert OpenerAgrees(Run(column, commands).positions, ticker);
  }

  lemma ClosingFillCredits(column: Column, sound: Ledger, l: Ledger, id: OrderId, ticker: string, side: Side, d: Decision, buyer: OrderId)
    requires Sound(column, sound) && l.positions == sound.positions && GoodFill(d)
    requires ApplyFill(column, l, id, ticker, side, d).Ok?
    ensures var l' := ApplyFill(column, l, id, ticker, side, d).value;
            || l'.trades == l.trades
            || (&& |l'.trades| == |l.trades| + 1 && l'.trades[..|l.trades|] == l.trades
                && var t := l'.trades[|l.trades|];
                   t.opener == Some(buyer) <==> Openers(l.positions, t.ticker) == {buyer})
  {
    hide ApplyFill, FilledRow, Round8, Times, AccountAfter, Openers, Conserved, OrderAgrees;
    FillShape(column, l, id, ticker, side, d);
    assert OpenerAgrees(sound.positions, ticker);
    if side.Sell? {
      LatestIsARow(l.positions, ticker);
    }
  }

  /** A closing trade credits an order exactly when that order alone bought what was held. */
  lemma ClosingTradeCreditsItsBuyer(column: Column, commands: seq<Command>, c: Command, id: OrderId)
    ensures var l := Run(column, commands);
            var l' := Step(column, l, c);
            || l'.trades == l.trades
            || (&& |l'.trades| == |l.trades| + 1 && l'.trades[..|l.trades|] == l.trades
                && var t := l'.trades[|l.trades|];
                   t.opener == Some(id) <==> Openers(l.positions, t.ticker) == {id})
  {
    hide Times, Round8, Trunc8, Evaluate, RiskPrice, AskedQuantity, ApplyFill, Run, Openers, Sound;
    var l := Run(column, commands);
    RunIsSound(column, commands);
    var l' := Step(column, l, c);
    if l'.trades != l.trades {
      match c
      case Place(order, body, _) =>
        var d := Evaluate(body.side, AskedQuantity(body), body.estimatedPrice, body.profile);
        PolicyGivesGoodFill(body.side, AskedQuantity(body), body.estimatedPrice, body.profile);
        ClosingFillCredits(column, l, l.(orders := l.orders[order := NewOrder(body, AskedQuantity(body), d)]),
                           order, body.ticker, body.side, d, id);
      case FollowUp(order, quantity, price, _) =>
        var o := l.orders[order];
        PolicyGivesGoodFill(o.side, Trunc8(quantity), price, Standard);
        ClosingFillCredits(column, l, l, order, o.ticker, o.side, Evaluate(o.side, Trunc8(quantity), price, Standard), id);
    }
  }
}
