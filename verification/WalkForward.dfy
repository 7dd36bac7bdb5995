/** The walk-forward scan (apps/api/app/backtest/engine.py:1176-1426): bars are grouped into
    sessions, and each window takes the shortest runs of whole sessions that give it enough
    train, validation and test bars. */
module WalkForward {
  import opened Outcomes

  /** The bars [first, after) of one session. */
  datatype Group = Group(session: int, first: nat, after: nat)

  /** Groups [trainStart, trainEnd) train, [trainEnd, validationEnd) validate and
      [validationEnd, testEnd) test; the group before each part is its warm-up. */
  datatype Window = Window(trainStart: nat, trainEnd: nat, validationEnd: nat, testEnd: nat)

  datatype Sizes = Sizes(inSample: nat, outSample: nat, step: nat)

  predicate Positive(z: Sizes) { z.inSample > 0 && z.outSample > 0 && z.step > 0 }

  // ---------------------------------------------------------------- session groups

  /** The groups cut the bars into consecutive stretches, each the whole of one session's
      stretch and no more. */
  ghost predicate Tiles(groups: seq<Group>, sessions: seq<int>) {
    && (groups == [] <==> sessions == [])
    && (groups != [] ==> groups[0].first == 0 && groups[|groups| - 1].after == |sessions|)
    && (forall g :: 0 <= g < |groups| ==>
          && groups[g].first < groups[g].after <= |sessions|
          && forall b :: groups[g].first <= b < groups[g].after ==> sessions[b] == groups[g].session)
    && (forall g :: 0 < g < |groups| ==>
          groups[g].first == groups[g - 1].after && groups[g].session != groups[g - 1].session)
  }

  lemma NoGroups()
    ensures Tiles([], [])
  {}

  lemma OpenGroup(groups: seq<Group>, sessions: seq<int>, session: int)
    requires Tiles(groups, sessions) && (groups == [] || groups[|groups| - 1].session != session)
    ensures Tiles(groups + [Group(session, |sessions|, |sessions| + 1)], sessions + [session])
  {}

  lemma ExtendGroup(groups: seq<Group>, sessions: seq<int>, session: int)
    requires Tiles(groups, sessions) && groups != [] && groups[|groups| - 1].session == session
    ensures var last := |groups| - 1;
            Tiles(groups[last := Group(session, groups[last].first, |sessions| + 1)], sessions + [session])
  {}

  method SessionGroups(sessions: seq<int>) returns (groups: seq<Group>)
    ensures Tiles(groups, sessions)
  {
    hide Tiles;
    groups := [];
    NoGroups();
    for index := 0 to |sessions|
      invariant Tiles(groups, sessions[..index])
    {
      var session := sessions[index];
      var last := |groups| - 1;
      if groups == [] || groups[last].session != session {
        OpenGroup(groups, sessions[..index], session);
        groups := groups + [Group(session, index, index + 1)];
      } else {
        ExtendGroup(groups, sessions[..index], session);
        groups := groups[last := Group(session, groups[last].first, index + 1)];
      }
      assert sessions[..index] + [session] == sessions[..index + 1];
    }
    assert sessions[..|sessions|] == sessions;
  }

  lemma GroupEndsItsStretch(groups: seq<Group>, sessions: seq<int>, g: nat)
    requires Tiles(groups, sessions) && g < |groups|
    ensures groups[g].after < |sessions| ==> sessions[groups[g].after] != groups[g].session
    ensures groups[g].after == |sessions| <==> g == |groups| - 1
  {
    if g + 1 < |groups| {
      assert groups[g + 1].first == groups[g].after;
    }
  }

  /** Only one list of groups tiles a series. */
  lemma {:induction false} TilesOneWay(a: seq<Group>, b: seq<Group>, sessions: seq<int>, n: nat)
    requires Tiles(a, sessions) && Tiles(b, sessions) && n <= |a| && n <= |b|
    ensures a[..n] == b[..n]
    ensures n == |a| || n == |b| ==> a == b
  {
    if n > 0 {
      TilesOneWay(a, b, sessions, n - 1);
      var v, w := a[n - 1], b[n - 1];
      assert n > 1 ==> a[n - 2] == a[..n - 1][n - 2] == b[n - 2];
      assert v.first == w.first;
      assert sessions[v.first] == v.session;
      assert sessions[w.first] == w.session;
      GroupEndsItsStretch(a, sessions, n - 1);
      GroupEndsItsStretch(b, sessions, n - 1);
    }
  }

  /** Bars of the groups [a, b). */
  function Bars(groups: seq<Group>, a: nat, b: nat): int
    requires a <= b <= |groups|
  {
    if a == b then 0 else groups[b - 1].after - groups[a].first
  }

  ghost predicate Ordered(groups: seq<Group>) {
    && (forall g :: 0 <= g < |groups| ==> groups[g].first < groups[g].after)
    && (forall g :: 0 < g < |groups| ==> groups[g].first == groups[g - 1].after)
  }

  lemma {:induction false} BarsAddUp(groups: seq<Group>, a: nat, b: nat, c: nat)
    requires Ordered(groups) && a <= b <= c <= |groups|
    ensures Bars(groups, a, c) == Bars(groups, a, b) + Bars(groups, b, c)
    ensures Bars(groups, b, c) >= c - b
    decreases c
  {
    if b < c {
      BarsAddUp(groups, a, b, c - 1);
    }
  }

  lemma OneGroup(groups: seq<Group>, g: nat)
    requires g < |groups|
    ensures Bars(groups, g, g + 1) == groups[g].after - groups[g].first
  {}

  // ---------------------------------------------------------------- one part

  /** [a, b) is the shortest run of whole sessions from a with at least `minimum` bars. */
  ghost predicate Shortest(groups: seq<Group>, a: nat, b: nat, minimum: nat) {
    && a <= b <= |groups| && Bars(groups, a, b) >= minimum
    && forall c :: a <= c < b ==> Bars(groups, a, c) < minimum
  }

  method TakeCompleteSessions(groups: seq<Group>, start: nat, minimum: nat) returns (end: Option<nat>)
    requires Ordered(groups) && start <= |groups|
    ensures end.Some? ==> Shortest(groups, start, end.value, minimum)
    ensures end.None? ==> Bars(groups, start, |groups|) < minimum
  {
    var count := 0;
    var e := start;
    while e < |groups| && count < minimum
      invariant start <= e <= |groups| && count == Bars(groups, start, e)
      invariant forall c :: start <= c < e ==> Bars(groups, start, c) < minimum
    {
      BarsAddUp(groups, start, e, e + 1);
      count := count + (groups[e].after - groups[e].first);
      e := e + 1;
    }
    return if count >= minimum then Some(e) else None;
  }

  // ---------------------------------------------------------------- the scan

  ghost predicate Complete(groups: seq<Group>, z: Sizes, w: Window) {
    && Shortest(groups, w.trainStart, w.trainEnd, z.inSample)
    && Shortest(groups, w.trainEnd, w.validationEnd, z.outSample)
    && Shortest(groups, w.validationEnd, w.testEnd, z.outSample)
  }

  /** The first group at or after the block's end by which `step` bars have gone by, or the
      end of the data. */
  ghost predicate NextStart(groups: seq<Group>, z: Sizes, w: Window, n: nat) {
    && w.trainStart <= w.testEnd <= n <= |groups|
    && (Bars(groups, w.trainStart, n) >= z.step || n == |groups|)
    && forall m :: w.testEnd <= m < n ==> Bars(groups, w.trainStart, m) < z.step
  }

  /** Where the scan looks for a window after those found so far. */
  ghost predicate LooksFrom(groups: seq<Group>, z: Sizes, windows: seq<Window>, n: nat) {
    if windows == [] then n == 1 else NextStart(groups, z, windows[|windows| - 1], n)
  }

  ghost predicate Chained(groups: seq<Group>, z: Sizes, windows: seq<Window>) {
    forall i :: 0 <= i < |windows| ==>
      && windows[i].trainStart >= 1
      && Complete(groups, z, windows[i])
      && LooksFrom(groups, z, windows[..i], windows[i].trainStart)
  }

  /** The scan's result: every window is complete and starts exactly where the scan must look
      next, and where it ends no further window fits. */
  ghost predicate IsScan(groups: seq<Group>, z: Sizes, windows: seq<Window>) {
    && Chained(groups, z, windows)
    && forall w: Window :: LooksFrom(groups, z, windows, w.trainStart) ==> !Complete(groups, z, w)
  }

  lemma NoneFits(groups: seq<Group>, a: nat, w: Window, minimum: nat)
    requires Ordered(groups) && a <= |groups| && Bars(groups, a, |groups|) < minimum
    ensures !Shortest(groups, a, w.trainEnd, minimum) && !Shortest(groups, a, w.validationEnd, minimum)
    ensures !Shortest(groups, a, w.testEnd, minimum)
  {
    forall b | a <= b <= |groups| ensures Bars(groups, a, b) < minimum {
      BarsAddUp(groups, a, b, |groups|);
    }
  }

  lemma ShortestIsUnique(groups: seq<Group>, a: nat, b: nat, c: nat, minimum: nat)
    requires Shortest(groups, a, b, minimum) && Shortest(groups, a, c, minimum)
    ensures b == c
  {}

  lemma ShortestIsNotEmpty(groups: seq<Group>, a: nat, b: nat, minimum: nat)
    requires Shortest(groups, a, b, minimum) && minimum > 0
    ensures a < b
  {}

  method Scan(groups: seq<Group>, z: Sizes) returns (windows: seq<Window>)
    requires Ordered(groups) && Positive(z)
    ensures IsScan(groups, z, windows)
  {
    hide Bars, Shortest, IsScan;
    windows := [];
    var warmup := 0;
    while warmup + 1 < |groups|
      invariant Chained(groups, z, windows)
      invariant LooksFrom(groups, z, windows, warmup + 1)
      decreases |groups| - warmup
    {
      var start := warmup + 1;
      var trainEnd := TakeCompleteSessions(groups, start, z.inSample);
      if trainEnd.None? {
        NothingFrom(groups, z, windows, start);
        return;
      }
      var validationEnd := TakeCompleteSessions(groups, trainEnd.value, z.outSample);
      if validationEnd.None? {
        NothingAfterTrain(groups, z, windows, start, trainEnd.value);
        return;
      }
      var testEnd := TakeCompleteSessions(groups, validationEnd.value, z.outSample);
      if testEnd.None? {
        NothingAfterValidation(groups, z, windows, start, trainEnd.value, validationEnd.value);
        return;
      }
      var w := Window(start, trainEnd.value, validationEnd.value, testEnd.value);
      ChainGrows(groups, z, windows, w);
      windows := windows + [w];
      ShortestIsNotEmpty(groups, start, trainEnd.value, z.inSample);
      var next := testEnd.value;
      var stride := Bars(groups, start, next);
      while next < |groups| && stride < z.step
        invariant testEnd.value <= next <= |groups| && stride == Bars(groups, start, next)
        invariant forall m :: testEnd.value <= m < next ==> Bars(groups, start, m) < z.step
      {
        BarsAddUp(groups, start, next, next + 1);
        OneGroup(groups, next);
        stride := stride + (groups[next].after - groups[next].first);
        next := next + 1;
      }
      warmup := next - 1;
    }
    NothingAtTheEnd(groups, z, windows, warmup + 1);
  }

  lemma ChainGrows(groups: seq<Group>, z: Sizes, windows: seq<Window>, w: Window)
    requires Chained(groups, z, windows) && LooksFrom(groups, z, windows, w.trainStart)
    requires w.trainStart >= 1 && Complete(groups, z, w)
    ensures Chained(groups, z, windows + [w])
  {
    hide Bars;
    var more := windows + [w];
    forall i | 0 <= i < |more|
      ensures more[i].trainStart >= 1 && Complete(groups, z, more[i])
              && LooksFrom(groups, z, more[..i], more[i].trainStart)
    {
      assert i <= |windows| && more[..i] == windows[..i];
      assert windows[..|windows|] == windows;
    }
  }

  lemma LooksFromOnce(groups: seq<Group>, z: Sizes, windows: seq<Window>, m: nat, n: nat)
    requires LooksFrom(groups, z, windows, m) && LooksFrom(groups, z, windows, n)
    ensures m == n
  {}

  lemma NothingFrom(groups: seq<Group>, z: Sizes, windows: seq<Window>, start: nat)
    requires Ordered(groups) && Chained(groups, z, windows) && LooksFrom(groups, z, windows, start)
    requires start <= |groups| && Bars(groups, start, |groups|) < z.inSample
    ensures IsScan(groups, z, windows)
  {
    hide Bars;
    forall w: Window | LooksFrom(groups, z, windows, w.trainStart) ensures !Complete(groups, z, w) {
      LooksFromOnce(groups, z, windows, start, w.trainStart);
      NoneFits(groups, start, w, z.inSample);
    }
  }

  lemma NothingAfterTrain(groups: seq<Group>, z: Sizes, windows: seq<Window>, start: nat, trainEnd: nat)
    requires Ordered(groups) && Chained(groups, z, windows) && LooksFrom(groups, z, windows, start)
    requires Shortest(groups, start, trainEnd, z.inSample) && Bars(groups, trainEnd, |groups|) < z.outSample
    ensures IsScan(groups, z, windows)
  {
    hide Bars;
    forall w: Window | LooksFrom(groups, z, windows, w.trainStart) ensures !Complete(groups, z, w) {
      LooksFromOnce(groups, z, windows, start, w.trainStart);
      NoneFits(groups, trainEnd, w, z.outSample);
    }
  }

  lemma NothingAfterValidation(groups: seq<Group>, z: Sizes, windows: seq<Window>, start: nat, trainEnd: nat, validationEnd: nat)
    requires Ordered(groups) && Chained(groups, z, windows) && LooksFrom(groups, z, windows, start)
    requires Shortest(groups, start, trainEnd, z.inSample) && Shortest(groups, trainEnd, validationEnd, z.outSample)
    requires Bars(groups, validationEnd, |groups|) < z.outSample
    ensures IsScan(groups, z, windows)
  {
    hide Bars;
    forall w: Window | LooksFrom(groups, z, windows, w.trainStart) ensures !Complete(groups, z, w) {
      LooksFromOnce(groups, z, windows, start, w.trainStart);
      NoneFits(groups, validationEnd, w, z.outSample);
    }
  }

  lemma NothingAtTheEnd(groups: seq<Group>, z: Sizes, windows: seq<Window>, start: nat)
    requires Ordered(groups) && Positive(z) && Chained(groups, z, windows)
    requires LooksFrom(groups, z, windows, start) && start >= |groups|
    ensures IsScan(groups, z, windows)
  {
    hide Bars;
    forall w: Window | LooksFrom(groups, z, windows, w.trainStart) ensures !Complete(groups, z, w) {
      LooksFromOnce(groups, z, windows, start, w.trainStart);
      if Complete(groups, z, w) {
        ShortestIsNotEmpty(groups, w.trainStart, w.trainEnd, z.inSample);
      }
    }
  }

  /** Every session stretch starts at its open and ends with its terminal bar. */
  ghost predicate WholeSessions(groups: seq<Group>, atOpen: seq<bool>, atClose: seq<bool>)
    requires |atOpen| == |atClose|
    requires forall g <- groups :: g.first < g.after <= |atOpen|
  {
    forall g <- groups :: atOpen[g.first] && atClose[g.after - 1]
  }

  /** The whole run over bars whose sessions, opens and terminal bars the calendar has named:
      it is refused unless every session is whole, and otherwise is the scan of its groups. */
  method Run(sessions: seq<int>, atOpen: seq<bool>, atClose: seq<bool>, z: Sizes) returns (r: Result<(seq<Group>, seq<Window>)>)
    requires |atOpen| == |atClose| == |sessions|
    ensures r.Ok? ==>
              && z.inSample >= 1 && z.outSample >= 1 && z.step >= 1
              && Tiles(r.value.0, sessions) && WholeSessions(r.value.0, atOpen, atClose)
              && IsScan(r.value.0, z, r.value.1)
    ensures r.Refused? && z.inSample >= 1 && z.outSample >= 1 && z.step >= 1 ==>
              exists groups :: Tiles(groups, sessions) && !WholeSessions(groups, atOpen, atClose)
  {
    hide Bars, IsScan;
    if !Positive(z) {
      return Refused("sizes");
    }
    var groups := SessionGroups(sessions);
    for g := 0 to |groups|
      invariant forall h :: 0 <= h < g ==> atOpen[groups[h].first] && atClose[groups[h].after - 1]
    {
      if !atOpen[groups[g].first] || !atClose[groups[g].after - 1] {
        assert groups[g] in groups;
        return Refused("session");
      }
    }
    var windows := Scan(groups, z);
    r := Ok((groups, windows));
  }

  // ---------------------------------------------------------------- main results

  /** The scan has one result: whoever meets its description finds the same windows. */
  lemma {:induction false} ScanIsDetermined(groups: seq<Group>, z: Sizes, a: seq<Window>, b: seq<Window>)
    requires IsScan(groups, z, a) && IsScan(groups, z, b)
    ensures a == b
  {
    hide Bars;
    SamePrefix(groups, z, a, b, if |a| <= |b| then |a| else |b|);
  }

  lemma NthWindow(groups: seq<Group>, z: Sizes, windows: seq<Window>, n: nat)
    requires Chained(groups, z, windows) && n < |windows|
    ensures Complete(groups, z, windows[n]) && LooksFrom(groups, z, windows[..n], windows[n].trainStart)
  {
    hide Complete, LooksFrom;
  }

  lemma SameWindow(groups: seq<Group>, z: Sizes, v: Window, w: Window)
    requires Complete(groups, z, v) && Complete(groups, z, w) && v.trainStart == w.trainStart
    ensures v == w
  {
    hide Shortest;
    ShortestIsUnique(groups, v.trainStart, v.trainEnd, w.trainEnd, z.inSample);
    ShortestIsUnique(groups, v.trainEnd, v.validationEnd, w.validationEnd, z.outSample);
    ShortestIsUnique(groups, v.validationEnd, v.testEnd, w.testEnd, z.outSample);
  }

  lemma {:induction false} SamePrefix(groups: seq<Group>, z: Sizes, a: seq<Window>, b: seq<Window>, n: nat)
    requires Chained(groups, z, a) && Chained(groups, z, b) && n <= |a| && n <= |b|
    ensures a[..n] == b[..n]
  {
    hide Chained, Complete, LooksFrom;
    if n > 0 {
      SamePrefix(groups, z, a, b, n - 1);
      NthWindow(groups, z, a, n - 1);
      NthWindow(groups, z, b, n - 1);
      LooksFromOnce(groups, z, a[..n - 1], a[n - 1].trainStart, b[n - 1].trainStart);
      SameWindow(groups, z, a[n - 1], b[n - 1]);
    }
  }

  /** Windows run forward in time: a later window's training starts at or after an earlier
      one's test ends, so no group is eligible in two windows, and at least the block and at
      least `step` bars lie between the two starts. */
  lemma {:induction false} WindowsAreDisjoint(groups: seq<Group>, z: Sizes, windows: seq<Window>, i: nat, j: nat)
    requires Ordered(groups) && Positive(z) && Chained(groups, z, windows) && i < j < |windows|
    ensures var v, w := windows[i], windows[j];
            && 1 <= v.trainStart < v.trainEnd < v.validationEnd < v.testEnd <= w.trainStart < |groups|
            && Bars(groups, v.trainStart, w.trainStart) >= Bars(groups, v.trainStart, v.testEnd)
            && Bars(groups, v.trainStart, w.trainStart) >= z.step
    decreases j
  {
    hide Bars;
    var v, w := windows[i], windows[j];
    ShortestIsNotEmpty(groups, v.trainStart, v.trainEnd, z.inSample);
    ShortestIsNotEmpty(groups, v.trainEnd, v.validationEnd, z.outSample);
    ShortestIsNotEmpty(groups, v.validationEnd, v.testEnd, z.outSample);
    ShortestIsNotEmpty(groups, w.trainStart, w.trainEnd, z.inSample);
    var u := windows[j - 1];
    assert windows[..j][j - 1] == u && NextStart(groups, z, u, w.trainStart);
    if i < j - 1 {
      WindowsAreDisjoint(groups, z, windows, i, j - 1);
      ShortestIsNotEmpty(groups, u.trainStart, u.trainEnd, z.inSample);
      BarsAddUp(groups, v.trainStart, u.trainStart, w.trainStart);
    }
    BarsAddUp(groups, v.trainStart, v.testEnd, w.trainStart);
  }

  // ---------------------------------------------------------------- selection

  /** What the two backtests of one candidate gave; `failed` when either raised. */
  datatype Candidate = Candidate(failed: bool, trainPositions: nat, validationPositions: nat, sharpe: Option<real>)

  predicate Eligible(c: Candidate) {
    !c.failed && c.trainPositions >= 10 && c.validationPositions >= 10 && c.sharpe.Some?
  }

  function Count(candidates: seq<Candidate>): nat {
    |set i | 0 <= i < |candidates| && Eligible(candidates[i])|
  }

  /** The first of the eligible candidates with the highest validation Sharpe ratio. */
  method Optimise(candidates: seq<Candidate>) returns (best: Option<nat>, eligible: nat)
    ensures eligible == Count(candidates)
    ensures best.None? <==> forall c <- candidates :: !Eligible(c)
    ensures best.None? ==> forall c <- candidates ::
              c.failed || c.trainPositions < 10 || c.validationPositions < 10 || c.sharpe.None?
    ensures best.Some? ==>
              && best.value < |candidates| && Eligible(candidates[best.value])
              && !candidates[best.value].failed && candidates[best.value].trainPositions >= 10
              && candidates[best.value].validationPositions >= 10
              && forall i :: 0 <= i < |candidates| && Eligible(candidates[i]) ==>
                   && candidates[i].sharpe.value <= candidates[best.value].sharpe.value
                   && (i < best.value ==> candidates[i].sharpe.value < candidates[best.value].sharpe.value)
  {
    best, eligible := None, 0;
    for k := 0 to |candidates|
      invariant eligible == |set i | 0 <= i < k && Eligible(candidates[i])|
      invariant best.None? <==> forall i :: 0 <= i < k ==> !Eligible(candidates[i])
      invariant best.Some? ==>
        && best.value < k && Eligible(candidates[best.value])
        && forall i :: 0 <= i < k && Eligible(candidates[i]) ==>
             && candidates[i].sharpe.value <= candidates[best.value].sharpe.value
             && (i < best.value ==> candidates[i].sharpe.value < candidates[best.value].sharpe.value)
    {
      ghost var before := set i | 0 <= i < k && Eligible(candidates[i]);
      ghost var after := set i | 0 <= i < k + 1 && Eligible(candidates[i]);
      if Eligible(candidates[k]) {
        assert after == before + {k};
        eligible := eligible + 1;
        if best.None? || candidates[k].sharpe.value > candidates[best.value].sharpe.value {
          best := Some(k);
        }
      } else {
        assert after == before;
      }
    }
  }
}
