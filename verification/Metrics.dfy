/** One-pass measures of a backtest: deepest drawdown, longest losing run, longest run of
    missing sessions (apps/api/app/backtest/engine.py:993-1011 and 1111-1120,
    apps/api/app/backtest/portfolio_engine.py:214-223). */
module Metrics {

  function Drop(from: real, to: real): real
    requires from != 0.0
  {
    (from - to) / from * 100.0
  }

  lemma Quotient(x: real, d: real, q: real)
    requires d != 0.0 && q * d == x
    ensures x / d == q
  {}

  lemma DropGrowsWithPeak(low: real, high: real, to: real)
    requires 0.0 < low <= high && 0.0 <= to
    ensures Drop(low, to) <= Drop(high, to)
  {
    var a, b := to / low, to / high;
    assert (1.0 - a) * low == low - to && (1.0 - b) * high == high - to;
    Quotient(low - to, low, 1.0 - a);
    Quotient(high - to, high, 1.0 - b);
    assert a >= 0.0 && b >= 0.0;
    assert b > a ==> b * high >= b * low;
    assert 1.0 - a <= 1.0 - b;
  }

  lemma DropFromItself(x: real)
    requires x > 0.0
    ensures Drop(x, x) == 0.0
  {}

  /** Point i is the running peak at j. */
  ghost predicate IsPeak(equity: seq<real>, i: int, j: int) {
    0 <= i <= j < |equity| && forall h :: 0 <= h <= j ==> equity[h] <= equity[i]
  }

  /** What the one-pass tracker reports: the deepest fall from a running peak. */
  ghost predicate IsTracked(equity: seq<real>, deepest: real)
    requires equity != [] && equity[0] > 0.0
  {
    && (exists i, j :: IsPeak(equity, i, j) && deepest == Drop(equity[i], equity[j]))
    && forall i, j :: IsPeak(equity, i, j) ==> Drop(equity[i], equity[j]) <= deepest
  }

  /** No fall from a positive point to a later one is deeper. */
  ghost predicate NoneDeeper(equity: seq<real>, deepest: real) {
    forall i, j :: 0 <= i <= j < |equity| && equity[i] > 0.0 ==> Drop(equity[i], equity[j]) <= deepest
  }

  /** Point i is the lowest positive point up to j. */
  ghost predicate IsLowest(equity: seq<real>, i: int, j: int) {
    && 0 <= i <= j < |equity| && equity[i] > 0.0
    && forall h :: 0 <= h <= j && equity[h] > 0.0 ==> equity[i] <= equity[h]
  }

  /** No fall from a running peak to one of the first n points is deeper. */
  ghost predicate TrackedUpTo(equity: seq<real>, deepest: real, n: int)
    requires equity != [] && equity[0] > 0.0
  {
    forall i, j :: IsPeak(equity, i, j) && j < n ==> Drop(equity[i], equity[j]) <= deepest
  }

  lemma NextPeak(equity: seq<real>, peakAt: nat, n: nat)
    requires n < |equity| && (if n == 0 then peakAt == 0 else IsPeak(equity, peakAt, n - 1))
    ensures IsPeak(equity, if equity[n] > equity[peakAt] then n else peakAt, n)
  {}

  lemma PeaksAgree(equity: seq<real>, i: nat, h: nat, j: nat)
    requires IsPeak(equity, i, j) && IsPeak(equity, h, j)
    ensures equity[i] == equity[h]
  {}

  lemma TrackedOneMore(equity: seq<real>, deepest: real, peakAt: nat, n: nat, deeper: real)
    requires equity != [] && equity[0] > 0.0 && TrackedUpTo(equity, deepest, n) && IsPeak(equity, peakAt, n)
    requires deepest <= deeper && Drop(equity[peakAt], equity[n]) <= deeper
    ensures TrackedUpTo(equity, deeper, n + 1)
  {
    hide Drop;
    forall i, j | IsPeak(equity, i, j) && j < n + 1 ensures Drop(equity[i], equity[j]) <= deeper {
      if j == n {
        PeaksAgree(equity, i, peakAt, n);
      }
    }
  }

  /** One pass with a running peak; equity starts positive. */
  method MaxDrawdown(equity: seq<real>) returns (deepest: real, from: nat, to: nat)
    requires equity != [] && equity[0] > 0.0
    ensures IsTracked(equity, deepest)
    ensures IsPeak(equity, from, to) && deepest == Drop(equity[from], equity[to])
  {
    hide Drop, TrackedUpTo;
    DropFromItself(equity[0]);
    var peak := equity[0];
    var peakAt := 0;
    deepest, from, to := 0.0, 0, 0;
    assert IsPeak(equity, 0, 0);
    NothingTracked(equity);
    for idx := 0 to |equity|
      invariant peakAt < |equity| && peak == equity[peakAt] > 0.0
      invariant if idx == 0 then peakAt == 0 else IsPeak(equity, peakAt, idx - 1)
      invariant IsPeak(equity, from, to) && deepest == Drop(equity[from], equity[to])
      invariant TrackedUpTo(equity, deepest, idx)
    {
      hide IsPeak;
      NextPeak(equity, peakAt, idx);
      if equity[idx] > peak {
        peak, peakAt := equity[idx], idx;
      }
      var fall := Drop(peak, equity[idx]);
      TrackedOneMore(equity, deepest, peakAt, idx, if fall > deepest then fall else deepest);
      if fall > deepest {
        deepest, from, to := fall, peakAt, idx;
      }
    }
    TrackedToTheEnd(equity, deepest, from, to);
  }

  lemma NothingTracked(equity: seq<real>)
    requires equity != [] && equity[0] > 0.0
    ensures TrackedUpTo(equity, 0.0, 0)
  {}

  lemma TrackedToTheEnd(equity: seq<real>, deepest: real, from: nat, to: nat)
    requires equity != [] && equity[0] > 0.0 && TrackedUpTo(equity, deepest, |equity|)
    requires IsPeak(equity, from, to) && deepest == Drop(equity[from], equity[to])
    ensures IsTracked(equity, deepest)
  {
    hide Drop;
  }

  lemma {:induction false} PeakOf(equity: seq<real>, j: nat) returns (i: nat)
    requires j < |equity|
    ensures IsPeak(equity, i, j)
  {
    if j == 0 {
      i := 0;
    } else {
      i := PeakOf(equity, j - 1);
      if equity[j] > equity[i] {
        i := j;
      }
    }
  }

  lemma {:induction false} LowestOf(equity: seq<real>, j: nat) returns (i: nat)
    requires j < |equity| && equity[0] > 0.0
    ensures IsLowest(equity, i, j)
  {
    if j == 0 {
      i := 0;
    } else {
      i := LowestOf(equity, j - 1);
      if 0.0 < equity[j] < equity[i] {
        i := j;
      }
    }
  }

  lemma DropShrinksBelowZero(low: real, high: real, to: real)
    requires 0.0 < low <= high && to < 0.0
    ensures Drop(high, to) <= Drop(low, to)
  {
    var a, b := to / low, to / high;
    assert (1.0 - a) * low == low - to && (1.0 - b) * high == high - to;
    Quotient(low - to, low, 1.0 - a);
    Quotient(high - to, high, 1.0 - b);
    assert a < b ==> a * low < b * low;
    assert b * high == to && a * low == to;
    assert b <= 0.0;
    assert b * high <= b * low;
  }

  /** The tracker's figure is the deepest fall over all pairs of points exactly when no negative
      point is a deeper fall from the lowest positive point before it; so it always is while no
      equity is negative. */
  lemma TrackedIsDeepestExactlyWhen(equity: seq<real>, deepest: real)
    requires equity != [] && equity[0] > 0.0 && IsTracked(equity, deepest)
    ensures NoneDeeper(equity, deepest) <==>
              forall i, j :: IsLowest(equity, i, j) && equity[j] < 0.0 ==> Drop(equity[i], equity[j]) <= deepest
    ensures (forall e <- equity :: e >= 0.0) ==> NoneDeeper(equity, deepest)
  {
    hide Drop;
    if forall i, j :: IsLowest(equity, i, j) && equity[j] < 0.0 ==> Drop(equity[i], equity[j]) <= deepest {
      forall i, j | 0 <= i <= j < |equity| && equity[i] > 0.0 ensures Drop(equity[i], equity[j]) <= deepest {
        if equity[j] >= 0.0 {
          var peak := PeakOf(equity, j);
          DropGrowsWithPeak(equity[i], equity[peak], equity[j]);
        } else {
          var low := LowestOf(equity, j);
          DropShrinksBelowZero(equity[low], equity[i], equity[j]);
        }
      }
    }
    if forall e <- equity :: e >= 0.0 {
      assert forall j :: 0 <= j < |equity| ==> equity[j] in equity;
    }
  }

  // ---------------------------------------------------------------- runs

  ghost predicate IsRun(hit: seq<bool>, i: int, j: int) {
    0 <= i <= j <= |hit| && forall k :: i <= k < j ==> hit[k]
  }

  ghost predicate IsLongestRun(hit: seq<bool>, n: nat) {
    && (exists i, j :: IsRun(hit, i, j) && j - i == n)
    && forall i, j :: IsRun(hit, i, j) ==> j - i <= n
  }

  function Losing(pnls: seq<real>): seq<bool> {
    seq(|pnls|, i requires 0 <= i < |pnls| => pnls[i] <= 0.0)
  }

  function Missing<T>(expected: seq<T>, observed: set<T>): seq<bool> {
    seq(|expected|, i requires 0 <= i < |expected| => expected[i] !in observed)
  }

  /** The longest run of consecutive trades that did not win. */
  method MaxConsecutiveLosses(pnls: seq<real>) returns (longest: nat)
    ensures IsLongestRun(Losing(pnls), longest)
  {
    longest := 0;
    var current := 0;
    ghost var hit := Losing(pnls);
    assert IsRun(hit, 0, 0);
    for k := 0 to |pnls|
      invariant current <= k && IsRun(hit, k - current, k)
      invariant k - current > 0 ==> !hit[k - current - 1]
      invariant exists i, j :: IsRun(hit, i, j) && j - i == longest
      invariant current <= longest
      invariant forall i, j :: IsRun(hit, i, j) && j <= k ==> j - i <= longest
    {
      if pnls[k] <= 0.0 {
        current := current + 1;
        assert IsRun(hit, k + 1 - current, k + 1);
        longest := if current > longest then current else longest;
      } else {
        current := 0;
        assert IsRun(hit, k + 1, k + 1);
      }
    }
  }

  /** The longest run of consecutive expected sessions with no bar. */
  method LongestMissingRun<T(==)>(expected: seq<T>, observed: set<T>) returns (longest: nat)
    ensures IsLongestRun(Missing(expected, observed), longest)
  {
    longest := 0;
    var current := 0;
    ghost var hit := Missing(expected, observed);
    assert IsRun(hit, 0, 0);
    for k := 0 to |expected|
      invariant current <= k && IsRun(hit, k - current, k)
      invariant k - current > 0 ==> !hit[k - current - 1]
      invariant exists i, j :: IsRun(hit, i, j) && j - i == longest
      invariant current <= longest
      invariant forall i, j :: IsRun(hit, i, j) && j <= k ==> j - i <= longest
    {
      if expected[k] in observed {
        current := 0;
        assert IsRun(hit, k + 1, k + 1);
      } else {
        current := current + 1;
        assert IsRun(hit, k + 1 - current, k + 1);
        longest := if current > longest then current else longest;
      }
    }
  }
}
