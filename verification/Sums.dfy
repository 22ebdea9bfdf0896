/** Finite sums of natural numbers, and products of two. */
module Sums {

  ghost function Sum(s: seq<nat>): nat {
    if s == [] then 0 else Sum(s[..|s| - 1]) + s[|s| - 1]
  }

  lemma {:induction false} SumUpdate(s: seq<nat>, i: nat, x: nat)
    requires i < |s|
    ensures Sum(s[i := x]) == Sum(s) - s[i] + x
    ensures Sum(s) >= s[i]
  {
    var last := |s| - 1;
    if i == last {
      assert s[i := x][..last] == s[..last];
    } else {
      SumUpdate(s[..last], i, x);
      assert s[i := x][..last] == s[..last][i := x];
    }
  }

  lemma {:induction false} SumAppend(s: seq<nat>, x: nat)
    ensures Sum(s + [x]) == Sum(s) + x
  {
    assert (s + [x])[..|s|] == s;
  }

  lemma {:induction false} SumConcat(a: seq<nat>, b: seq<nat>)
    ensures Sum(a + b) == Sum(a) + Sum(b)
  {
    if b == [] {
      assert a + b == a;
    } else {
      var last := |b| - 1;
      assert a + b == (a + b[..last]) + [b[last]] && b == b[..last] + [b[last]];
      SumConcat(a, b[..last]);
      SumAppend(a + b[..last], b[last]);
    }
  }

  lemma SumFirst(x: nat, s: seq<nat>)
    ensures Sum([x] + s) == x + Sum(s)
  {
    SumConcat([x], s);
    SumAppend([], x);
    assert [] + [x] == [x];
  }

  lemma {:induction false} SumBound(s: seq<nat>, m: nat)
    requires forall i :: 0 <= i < |s| ==> s[i] <= m
    ensures Sum(s) <= m * |s|
  {
    if s != [] {
      SumBound(s[..|s| - 1], m);
      assert m * |s| == m * (|s| - 1) + m;
    }
  }

  ghost predicate Fallen(before: seq<nat>, after: seq<nat>) {
    |before| == |after| && forall v :: 0 <= v < |before| ==> after[v] <= before[v]
  }

  lemma {:induction false} SumFalls(s: seq<nat>, t: seq<nat>)
    requires Fallen(s, t)
    ensures Sum(t) <= Sum(s)
    ensures (exists i :: 0 <= i < |s| && t[i] < s[i]) ==> Sum(t) < Sum(s)
  {
    if s != [] { SumFalls(s[..|s| - 1], t[..|t| - 1]); }
  }

  lemma {:induction false} MulMonotone(a: nat, b: nat, k: nat)
    requires a <= b
    ensures a * k <= b * k
  {
    if a < b {
      MulMonotone(a, b - 1, k);
      assert b * k == (b - 1) * k + k;
    }
  }
}
