/** Which bars a backtest trades, and what it shows the strategy on them. */
module BacktestSessions {
  import opened Decimals
  import opened Outcomes
  import opened Backtest
  import opened BacktestProofs

  // ---------------------------------------------------------------- what is known of a series

  /** Bars `first` to `i` are all that was seen of their session when bar `i` came. */
  ghost predicate Opens(ticks: seq<Tick>, first: nat, i: nat)
    requires i < |ticks|
  {
    && first <= i
    && (forall j :: first <= j <= i ==> ticks[j].session == ticks[i].session)
    && (first > 0 ==> ticks[first - 1].session != ticks[i].session)
  }

  /** The close of a session's last bar, once that bar is among the first k. */
  ghost function LastClose(c: Config, ticks: seq<Tick>, session: int, k: nat): Option<real>
    requires k <= |ticks|
  {
    if k == 0 then None
    else if ticks[k - 1].session == session && ticks[k - 1].time + 60 * c.intervalMinutes == c.calendar.closeOf(session)
    then Some(ticks[k - 1].bar.close)
    else LastClose(c, ticks, session, k - 1)
  }

  ghost predicate FromStart(c: Config, session: int) { c.startDate.Some? ==> c.startDate.value <= session }

  ghost predicate UntilEnd(c: Config, session: int) { c.endDate.Some? ==> session <= c.endDate.value }

  lemma TradableIsInRange(c: Config, t: Tick)
    ensures Tradable(c, t) == (FromStart(c, t.session) && UntilEnd(c, t.session))
  {}

  /** A bar past the end date ends the run. */
  ghost predicate Ended(c: Config, ticks: seq<Tick>, k: nat)
    requires k <= |ticks|
  {
    exists j :: 0 <= j < k && FromStart(c, ticks[j].session) && !UntilEnd(c, ticks[j].session)
  }

  /** A session is traded when its first bar is the one at the exchange's open and the close of
      the session before is known by then. */
  ghost predicate Eligible(c: Config, ticks: seq<Tick>, first: nat)
    requires first < |ticks|
  {
    && ticks[first].time == c.calendar.openOf(ticks[first].session)
    && LastClose(c, ticks, c.calendar.previous(ticks[first].session), first).Some?
  }

  ghost predicate Traded(c: Config, ticks: seq<Tick>, i: nat) {
    && i < |ticks| && FromStart(c, ticks[i].session) && UntilEnd(c, ticks[i].session) && !Ended(c, ticks, i)
    && exists first: nat :: Opens(ticks, first, i) && Eligible(c, ticks, first)
  }

  // ---------------------------------------------------------------- what the run knows

  /** The session state after bars `first` to `k - 1`. */
  ghost predicate SessionSince(c: Config, ticks: seq<Tick>, s: State, first: nat, k: nat)
    requires 0 < k <= |ticks| && first < k
  {
    var session := ticks[first].session;
    && s.current == Some(session)
    && s.previousClose == LastClose(c, ticks, c.calendar.previous(session), first)
    && (s.eligible <==> Eligible(c, ticks, first))
    && s.session == (if s.eligible && Tradable(c, ticks[first]) then ticks[first..k] else [])
  }

  ghost predicate ClosesKnown(c: Config, ticks: seq<Tick>, s: State, k: nat)
    requires k <= |ticks|
  {
    forall session: int ::
      LastClose(c, ticks, session, k) == if session in s.closes then Some(s.closes[session]) else None
  }

  ghost predicate TradedOk(c: Config, ticks: seq<Tick>, s: State, k: nat)
    requires k <= |ticks|
  {
    && (forall i: nat :: i in s.traded <==> i < k && Traded(c, ticks, i))
    && (forall a, b :: 0 <= a < b < |s.traded| ==> s.traded[a] < s.traded[b])
  }

  ghost predicate Known(c: Config, ticks: seq<Tick>, s: State, k: nat)
    requires k <= |ticks|
  {
    && (s.stopped <==> Ended(c, ticks, k))
    && TradedOk(c, ticks, s, k)
    && (!s.stopped ==>
          && s.history == ticks[..k] && ClosesKnown(c, ticks, s, k)
          && (k == 0 ==> s.current.None?)
          && (k > 0 ==> exists first: nat :: Opens(ticks, first, k - 1) && SessionSince(c, ticks, s, first, k)))
  }

  lemma SessionFromOneBar(ticks: seq<Tick>, first: nat, other: nat, i: nat)
    requires i < |ticks| && Opens(ticks, first, i) && Opens(ticks, other, i)
    ensures first == other
  {}

  /** What the session state becomes when a bar is seen. */
  lemma SeenBarOpens(c: Config, ticks: seq<Tick>, s: State, k: nat)
    requires k < |ticks| && Known(c, ticks, s, k) && !s.stopped
    ensures var s' := SeeBar(c, s, ticks[k]);
            && s'.history == ticks[..k + 1]
            && exists first: nat :: Opens(ticks, first, k) && SessionSeen(c, ticks, s', first, k)
  {
    hide LastClose, Eligible, TradedOk, Ended;
    var t := ticks[k];
    var s' := SeeBar(c, s, t);
    assert ticks[..k] + [t] == ticks[..k + 1];
    if s.current == Some(t.session) {
      var first: nat :| Opens(ticks, first, k - 1) && SessionSince(c, ticks, s, first, k);
      assert ticks[first].session == t.session;
      assert Opens(ticks, first, k);
      assert SessionSeen(c, ticks, s', first, k);
    } else {
      if k > 0 {
        var first: nat :| Opens(ticks, first, k - 1) && SessionSince(c, ticks, s, first, k);
        assert ticks[first].session == ticks[k - 1].session;
      }
      assert Opens(ticks, k, k);
      EligibleAtOpen(c, ticks, s, k);
      assert ticks[k..k] == [];
      assert SessionSeen(c, ticks, s', k, k);
    }
  }

  lemma EligibleAtOpen(c: Config, ticks: seq<Tick>, s: State, k: nat)
    requires k < |ticks| && ClosesKnown(c, ticks, s, k) && s.current != Some(ticks[k].session)
    ensures var s' := SeeBar(c, s, ticks[k]);
            && s'.previousClose == LastClose(c, ticks, c.calendar.previous(ticks[k].session), k)
            && (s'.eligible <==> Eligible(c, ticks, k))
  {
    hide LastClose;
  }

  /** The session state once bar k is seen, before it is traded. */
  ghost predicate SessionSeen(c: Config, ticks: seq<Tick>, s: State, first: nat, k: nat)
    requires first <= k < |ticks|
  {
    var session := ticks[first].session;
    && s.current == Some(session)
    && s.previousClose == LastClose(c, ticks, c.calendar.previous(session), first)
    && (s.eligible <==> Eligible(c, ticks, first))
    && s.session == (if s.eligible && Tradable(c, ticks[first]) then ticks[first..k] else [])
  }

  lemma TradingLeavesSession(c: Config, s: State, i: nat, t: Tick)
    requires TradeBar(c, s, i, t).Ok?
    ensures var s' := TradeBar(c, s, i, t).value;
            && s'.traded == s.traded + [i] && s'.session == s.session + [t]
            && s'.closes == RecordClose(c, s, t).closes
            && s'.current == s.current && s'.previousClose == s.previousClose && s'.eligible == s.eligible
            && s'.history == s.history && s'.stopped == s.stopped
  {
    hide ProcessPending, CheckExit, AskStrategy, Mark, RecordClose;
    var s1 := s.(traded := s.traded + [i], session := s.session + [t]);
    PendingTouchesOnlyItsOwn(c, s1, i, t);
    var s2 := ProcessPending(c, s1, i, t).value;
    ExitTouchesOnlyItsOwn(c, s2, i, t);
    var s3 := CheckExit(c, s2, i, t).value;
    AnswerTouchesOnlyItsOwn(c, s3, i, t);
    var s4 := AskStrategy(c, s3, i, t).value;
    MarkTouchesOnlyItsOwn(c, s4, i, t);
    MarkRecordsClose(c, s, s4, i, t);
  }

  lemma PendingTouchesOnlyItsOwn(c: Config, s: State, i: nat, t: Tick)
    requires ProcessPending(c, s, i, t).Ok?
    ensures var s' := ProcessPending(c, s, i, t).value;
            s' == s.(cash := s'.cash, position := s'.position, pending := s'.pending, entries := s'.entries,
                     commission := s'.commission, slippage := s'.slippage)
  {
    hide FillOrders;
    if i > 0 && s.pending != [] {
      OrdersOnlyAdd(c, s.(pending := []), i, t, s.pending);
    }
  }

  lemma AnswerTouchesOnlyItsOwn(c: Config, s: State, i: nat, t: Tick)
    requires AskStrategy(c, s, i, t).Ok?
    ensures var s' := AskStrategy(c, s, i, t).value; s' == s.(pending := s'.pending, levels := s'.levels)
  {
    hide ViewOf;
  }

  lemma MarkRecordsClose(c: Config, s: State, s': State, i: nat, t: Tick)
    requires s'.closes == s.closes
    ensures Mark(c, s', i, t).closes == RecordClose(c, s, t).closes
  {
    hide Times, Terminal;
  }

  lemma ClosesGrow(c: Config, ticks: seq<Tick>, s: State, s': State, k: nat)
    requires k < |ticks| && ClosesKnown(c, ticks, s, k) && s'.closes == RecordClose(c, s, ticks[k]).closes
    ensures ClosesKnown(c, ticks, s', k + 1)
  {}

  lemma EndedGrows(c: Config, ticks: seq<Tick>, k: nat)
    requires k < |ticks|
    ensures Ended(c, ticks, k + 1) <==> Ended(c, ticks, k) || (!BeforeStart(c, ticks[k]) && AfterEnd(c, ticks[k]))
  {
    if Ended(c, ticks, k) {
      var j :| 0 <= j < k && FromStart(c, ticks[j].session) && !UntilEnd(c, ticks[j].session);
    }
  }

  lemma TradedGrows(c: Config, ticks: seq<Tick>, s: State, s': State, k: nat)
    requires k < |ticks| && TradedOk(c, ticks, s, k)
    requires s'.traded == if Traded(c, ticks, k) then s.traded + [k] else s.traded
    ensures TradedOk(c, ticks, s', k + 1)
  {
    hide Traded;
    forall i: nat ensures i in s'.traded <==> i < k + 1 && Traded(c, ticks, i) {}
    forall a, b | 0 <= a < b < |s'.traded| ensures s'.traded[a] < s'.traded[b] {
      if b == |s.traded| {
        assert s.traded[a] in s.traded;
      }
    }
  }

  lemma TradedByFirst(c: Config, ticks: seq<Tick>, first: nat, k: nat)
    requires k < |ticks| && Opens(ticks, first, k)
    ensures Traded(c, ticks, k) <==> Tradable(c, ticks[k]) && !Ended(c, ticks, k) && Eligible(c, ticks, first)
  {
    hide Eligible, Ended, Opens, Tradable, FromStart, UntilEnd;
    TradableIsInRange(c, ticks[k]);
    forall other: nat | Opens(ticks, other, k) ensures other == first {
      SessionFromOneBar(ticks, first, other, k);
    }
  }

  lemma StepKnows(c: Config, ticks: seq<Tick>, s: State, k: nat)
    requires k < |ticks| && Known(c, ticks, s, k) && Step(c, s, k, ticks[k]).Ok?
    ensures Known(c, ticks, Step(c, s, k, ticks[k]).value, k + 1)
  {
    hide LastClose, Eligible, TradedOk, Ended, SeeBar, TradeBar, ClosesKnown, Terminal, BeforeStart, AfterEnd, Traded;
    var t := ticks[k];
    var s' := Step(c, s, k, t).value;
    EndedGrows(c, ticks, k);
    if s.stopped {
      EndedTradesNothing(c, ticks, k);
      TradedGrows(c, ticks, s, s', k);
    } else {
      var s1 := SeeBar(c, s, t);
      SeenBar(c, s, t);
      SeenBarOpens(c, ticks, s, k);
      SeeingKeepsCloses(c, s, t);
      var first: nat :| Opens(ticks, first, k) && SessionSeen(c, ticks, s1, first, k);
      SameRange(c, ticks, first, k);
      TradedByFirst(c, ticks, first, k);
      if Tradable(c, t) && s1.eligible {
        TradingLeavesSession(c, s1, k, t);
        assert ticks[first..k] + [t] == ticks[first..k + 1];
      }
      TradedGrows(c, ticks, s, s', k);
      if !s'.stopped {
        RecordsSame(c, s, s1, t);
        ClosesGrow(c, ticks, s, s', k);
        assert SessionSince(c, ticks, s', first, k + 1);
      }
    }
  }

  lemma EndedTradesNothing(c: Config, ticks: seq<Tick>, k: nat)
    requires k < |ticks| && Ended(c, ticks, k)
    ensures !Traded(c, ticks, k)
  {
    hide Ended;
  }

  lemma SameRange(c: Config, ticks: seq<Tick>, first: nat, k: nat)
    requires k < |ticks| && Opens(ticks, first, k)
    ensures ticks[first].session == ticks[k].session
    ensures Tradable(c, ticks[first]) == Tradable(c, ticks[k])
  {}

  lemma SeeingKeepsCloses(c: Config, s: State, t: Tick)
    ensures SeeBar(c, s, t).closes == s.closes
  {}

  lemma RecordsSame(c: Config, s: State, s': State, t: Tick)
    requires s'.closes == s.closes
    ensures RecordClose(c, s', t).closes == RecordClose(c, s, t).closes
  {}

  /** After any number of bars: the run has stopped exactly when one of them was past the end
      date; the bars traded are exactly those in the date range, before that, whose session
      began at the exchange's open with the close of the session before known; and the session
      and history it shows are the bars of this session and all the bars so far. */
  lemma {:induction false} RunKnows(c: Config, ticks: seq<Tick>, k: nat)
    requires k <= |ticks| && After(c, ticks, k).Ok?
    ensures Known(c, ticks, After(c, ticks, k).value, k)
  {
    hide Step, LastClose;
    if k > 0 {
      hide Known;
      RunKnows(c, ticks, k - 1);
      StepKnows(c, ticks, After(c, ticks, k - 1).value, k - 1);
    } else {
      NoCloseYet(c, ticks);
    }
  }

  lemma NoCloseYet(c: Config, ticks: seq<Tick>)
    ensures forall session: int :: LastClose(c, ticks, session, 0) == None
  {}
}
