/** Lists that hold the same elements in another order. */
module Rearranging {

  /** Where the first element of one list stands in a rearrangement of it. */
  lemma Locate<T>(a: seq<T>, b: seq<T>) returns (i: nat)
    requires multiset(a) == multiset(b) && a != []
    ensures i < |b| && b[i] == a[0] && b == b[..i] + [b[i]] + b[i + 1..]
    ensures multiset(a[1..]) == multiset(b[..i] + b[i + 1..])
  {
    assert a[0] in multiset(b);
    i :| 0 <= i < |b| && b[i] == a[0];
    assert a == [a[0]] + a[1..];
    assert b == b[..i] + [b[i]] + b[i + 1..];
    assert multiset(a) == multiset{a[0]} + multiset(a[1..]);
    assert multiset(b) == multiset(b[..i]) + multiset{b[i]} + multiset(b[i + 1..]);
    assert multiset(b[..i] + b[i + 1..]) == multiset(b[..i]) + multiset(b[i + 1..]);
    calc {
      multiset(a[1..]);
      multiset(a) - multiset{a[0]};
      multiset(b) - multiset{b[i]};
      multiset(b[..i]) + multiset(b[i + 1..]);
    }
  }

  lemma {:induction false} ImageRearranged<T, U>(a: seq<T>, b: seq<T>, pa: seq<U>, pb: seq<U>, f: T -> U)
    requires multiset(a) == multiset(b) && |pa| == |a| && |pb| == |b|
    requires forall i :: 0 <= i < |a| ==> pa[i] == f(a[i])
    requires forall i :: 0 <= i < |b| ==> pb[i] == f(b[i])
    ensures multiset(pa) == multiset(pb)
  {
    if a == [] {
      assert |multiset(b)| == 0;
    } else {
      var i := Locate(a, b);
      var rest, prest := b[..i] + b[i + 1..], pb[..i] + pb[i + 1..];
      ImageRearranged(a[1..], rest, pa[1..], prest, f);
      assert pa == [pa[0]] + pa[1..];
      assert pb == pb[..i] + [pb[i]] + pb[i + 1..];
    }
  }

  lemma SameMembers<T>(a: seq<T>, b: seq<T>)
    requires multiset(a) == multiset(b)
    ensures |a| == |b| && forall x: T :: x in a <==> x in b
  {
    assert |multiset(a)| == |multiset(b)|;
    forall x: T ensures x in a <==> x in b {
      assert x in a <==> x in multiset(a);
      assert x in b <==> x in multiset(b);
    }
  }

  lemma LastOf<T>(a: seq<T>)
    requires a != []
    ensures a == a[..|a| - 1] + [a[|a| - 1]]
    ensures multiset(a[..|a| - 1]) == multiset(a) - multiset{a[|a| - 1]}
  {
    assert a == a[..|a| - 1] + [a[|a| - 1]];
  }
}
