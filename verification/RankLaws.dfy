/** What the PageRank iterates are: the damped sum of what arrives over walks of every length, and a mass that an
    iteration conserves except at the vertices without out-edges. */
module RankLaws {
  import opened PageRank
  import C = Csr

  // ---- Handing over along the in-edges ----

  /** What the first `i` in-edges of `u` bring when every vertex `x` splits `w[x]` evenly over its out-edges. */
  ghost function Brought(c: Config, w: seq<real>, u: nat, i: nat): real
    requires ValidConfig(c) && |w| == c.n && u < c.n && i <= |c.inn[u]|
  {
    if i == 0 then 0.0
    else
      var x := c.inn[u][i - 1];
      assert x in c.inn[u] && Active(c, x);
      Brought(c, w, u, i - 1) + w[x] / c.deg[x] as real
  }

  /** The weight of all walks of `j` edges that end at a vertex, an edge out of `x` weighing 0.85 over `x`'s out-degree
      and a walk the product of its edges. */
  ghost function WalksInto(c: Config, j: nat): (w: seq<real>)
    requires ValidConfig(c)
    ensures |w| == c.n
  {
    if j == 0 then seq(c.n, _ => 1.0)
    else seq(c.n, u requires 0 <= u < c.n => 0.85 * Brought(c, WalksInto(c, j - 1), u, |c.inn[u]|))
  }

  /** The weight of the walks of fewer than `k` edges. */
  ghost function ShorterInto(c: Config, k: nat): (w: seq<real>)
    requires ValidConfig(c)
    ensures |w| == c.n
  {
    if k == 0 then seq(c.n, _ => 0.0)
    else seq(c.n, u requires 0 <= u < c.n => ShorterInto(c, k - 1)[u] + WalksInto(c, k - 1)[u])
  }

  /** `w` is `v` and `d` added up. */
  ghost predicate Added(w: seq<real>, v: seq<real>, d: seq<real>) {
    |w| == |v| == |d| && forall x :: 0 <= x < |w| ==> w[x] == v[x] + d[x]
  }

  /** `w` is a part 0.15 of `v`, and `d`. */
  ghost predicate Mixed(w: seq<real>, v: seq<real>, d: seq<real>) {
    |w| == |v| == |d| && forall x :: 0 <= x < |w| ==> w[x] == 0.15 * v[x] + d[x]
  }

  /** Handing over is linear. */
  lemma {:induction false} BroughtAdded(c: Config, w: seq<real>, v: seq<real>, d: seq<real>, u: nat, i: nat)
    requires ValidConfig(c) && |w| == c.n && Added(w, v, d) && u < c.n && i <= |c.inn[u]|
    ensures Brought(c, w, u, i) == Brought(c, v, u, i) + Brought(c, d, u, i)
  {
    if i > 0 {
      var x := c.inn[u][i - 1];
      assert x in c.inn[u] && Active(c, x);
      BroughtAdded(c, w, v, d, u, i - 1);
    }
  }

  lemma {:induction false} BroughtMixed(c: Config, w: seq<real>, v: seq<real>, d: seq<real>, u: nat, i: nat)
    requires ValidConfig(c) && |w| == c.n && Mixed(w, v, d) && u < c.n && i <= |c.inn[u]|
    ensures Brought(c, w, u, i) == 0.15 * Brought(c, v, u, i) + Brought(c, d, u, i)
  {
    if i > 0 {
      var x := c.inn[u][i - 1];
      assert x in c.inn[u] && Active(c, x);
      BroughtMixed(c, w, v, d, u, i - 1);
    }
  }

  lemma {:induction false} BroughtZero(c: Config, w: seq<real>, u: nat, i: nat)
    requires ValidConfig(c) && |w| == c.n && (forall x :: 0 <= x < c.n ==> w[x] == 0.0) && u < c.n && i <= |c.inn[u]|
    ensures Brought(c, w, u, i) == 0.0
  {
    if i > 0 {
      var x := c.inn[u][i - 1];
      assert x in c.inn[u] && Active(c, x);
      BroughtZero(c, w, u, i - 1);
    }
  }

  /** The walks of at most `k` edges: the empty one, and those of fewer than `k` edges with one more. */
  lemma {:induction false} OneEdgeMore(c: Config, k: nat, u: nat)
    requires ValidConfig(c) && u < c.n
    ensures ShorterInto(c, k + 1)[u] == 1.0 + 0.85 * Brought(c, ShorterInto(c, k), u, |c.inn[u]|)
  {
    assert ShorterInto(c, k + 1)[u] == ShorterInto(c, k)[u] + WalksInto(c, k)[u];
    if k == 0 {
      BroughtZero(c, ShorterInto(c, 0), u, |c.inn[u]|);
    } else {
      OneEdgeMore(c, k - 1, u);
      BroughtAdded(c, ShorterInto(c, k), ShorterInto(c, k - 1), WalksInto(c, k - 1), u, |c.inn[u]|);
    }
  }

  ghost function Ranks(c: Config, k: nat): (w: seq<real>)
    requires ValidConfig(c)
    ensures |w| == c.n && forall u :: 0 <= u < c.n ==> w[u] == Rank(c, k, u)
  {
    seq(c.n, u requires 0 <= u < c.n => Rank(c, k, u))
  }

  lemma {:induction false} GatheredIsBrought(c: Config, k: nat, u: nat, i: nat)
    requires ValidConfig(c) && u < c.n && i <= |c.inn[u]|
    ensures Gathered(c, k, u, i) == Brought(c, Ranks(c, k), u, i)
  {
    if i > 0 {
      assert c.inn[u][i - 1] in c.inn[u] && Active(c, c.inn[u][i - 1]);
      GatheredIsBrought(c, k, u, i - 1);
    }
  }

  /** The damped weight of the walks into `u`, those cut off after `k` edges in full. */
  ghost function Damped(c: Config, k: nat, u: nat): real
    requires ValidConfig(c) && u < c.n
  {
    0.15 * ShorterInto(c, k)[u] + WalksInto(c, k)[u]
  }

  lemma NextDamped(c: Config, k: nat, u: nat)
    requires ValidConfig(c) && u < c.n && Mixed(Ranks(c, k), ShorterInto(c, k), WalksInto(c, k))
    ensures Rank(c, k + 1, u) == Damped(c, k + 1, u)
  {
    GatheredIsBrought(c, k, u, |c.inn[u]|);
    BroughtMixed(c, Ranks(c, k), ShorterInto(c, k), WalksInto(c, k), u, |c.inn[u]|);
    OneEdgeMore(c, k, u);
    assert WalksInto(c, k + 1)[u] == 0.85 * Brought(c, WalksInto(c, k), u, |c.inn[u]|);
  }

  lemma {:induction false} RanksAreDamped(c: Config, k: nat)
    requires ValidConfig(c)
    ensures Mixed(Ranks(c, k), ShorterInto(c, k), WalksInto(c, k))
  {
    if k > 0 {
      RanksAreDamped(c, k - 1);
      forall u: nat | u < c.n
        ensures Ranks(c, k)[u] == 0.15 * ShorterInto(c, k)[u] + WalksInto(c, k)[u]
      {
        NextDamped(c, k - 1, u);
      }
    }
  }

  /** Closed form: after `k` rounds the rank is 0.15 times the weight of the walks of fewer than `k` edges, and the
      weight of the walks of `k` edges. */
  lemma RankIsDamped(c: Config, k: nat, u: nat)
    requires ValidConfig(c) && u < c.n
    ensures Rank(c, k, u) == Damped(c, k, u)
  {
    RanksAreDamped(c, k);
    assert Ranks(c, k)[u] == Rank(c, k, u);
  }

  // ---- Conservation ----

  /** How often `x` occurs in all the lists. */
  ghost function Occurs(lists: seq<seq<nat>>, x: nat): nat {
    if lists == [] then 0 else Occurs(lists[..|lists| - 1], x) + multiset(lists[|lists| - 1])[x]
  }

  /** The out-degree counts the in-edges that come from the vertex. */
  ghost predicate DegreesMatch(c: Config) {
    |c.deg| == c.n && forall x: nat :: x < c.n ==> c.deg[x] == Occurs(c.inn, x)
  }

  lemma {:induction false} OccursMore(lists: seq<seq<nat>>, v: nat, u: nat, x: nat)
    requires v < |lists|
    ensures Occurs(lists[v := lists[v] + [u]], x) == Occurs(lists, x) + if u == x then 1 else 0
  {
    var last := |lists| - 1;
    var more := lists[v := lists[v] + [u]];
    if v == last {
      assert more[..last] == lists[..last];
      assert multiset(lists[v] + [u])[x] == multiset(lists[v])[x] + if u == x then 1 else 0;
    } else {
      assert more[..last] == lists[..last][v := lists[v] + [u]];
      OccursMore(lists[..last], v, u, x);
    }
  }

  lemma {:induction false} OccursNone(lists: seq<seq<nat>>, x: nat)
    requires forall v :: 0 <= v < |lists| ==> lists[v] == []
    ensures Occurs(lists, x) == 0
  {
    if lists != [] { OccursNone(lists[..|lists| - 1], x); }
  }

  /** The in-neighbours an edge list gives `v`, in input order. */
  ghost function Sources(arcs: seq<C.Arc>, v: nat): seq<nat> {
    if arcs == [] then []
    else Sources(arcs[..|arcs| - 1], v) + if arcs[|arcs| - 1].v == v then [arcs[|arcs| - 1].u] else []
  }

  /** They are what the in-lists of an unweighted graph hold. */
  lemma {:induction false} SourcesAreWords(arcs: seq<C.Arc>, n: nat, v: nat)
    requires C.InRange(arcs, n)
    ensures C.InWords(arcs, n, false, v) == Sources(arcs, v)
  {
    if arcs != [] {
      C.InRangeFront(arcs, n);
      SourcesAreWords(arcs[..|arcs| - 1], n, v);
    }
  }

  ghost function SourceLists(arcs: seq<C.Arc>, n: nat): (lists: seq<seq<nat>>)
    ensures |lists| == n && forall v :: 0 <= v < n ==> lists[v] == Sources(arcs, v)
  {
    seq(n, v requires 0 <= v < n => Sources(arcs, v))
  }

  lemma OneArcMore(front: seq<C.Arc>, a: C.Arc, n: nat)
    requires a.v < n
    ensures SourceLists(front + [a], n) == SourceLists(front, n)[a.v := SourceLists(front, n)[a.v] + [a.u]]
  {
    var arcs, less := front + [a], SourceLists(front, n);
    var more := less[a.v := less[a.v] + [a.u]];
    assert arcs[..|arcs| - 1] == front;
    forall v: nat | v < n
      ensures SourceLists(arcs, n)[v] == more[v]
    {
      assert Sources(arcs, v) == less[v] + if a.v == v then [a.u] else [];
    }
  }

  /** In the lists of any edge list a vertex occurs as often as it has out-edges. */
  lemma {:induction false} EdgeListOccurs(arcs: seq<C.Arc>, n: nat, x: nat)
    requires forall a :: a in arcs ==> a.v < n
    ensures Occurs(SourceLists(arcs, n), x) == C.OutDegree(arcs, x)
  {
    if arcs == [] {
      OccursNone(SourceLists(arcs, n), x);
    } else {
      var front, a := arcs[..|arcs| - 1], arcs[|arcs| - 1];
      assert a in arcs && arcs == front + [a];
      EdgeListOccurs(front, n, x);
      OneArcMore(front, a, n);
      OccursMore(SourceLists(front, n), a.v, a.u, x);
    }
  }

  /** So the degrees and in-lists of any edge list match. */
  lemma EdgeListMatches(c: Config, arcs: seq<C.Arc>)
    requires C.InRange(arcs, c.n) && |c.inn| == |c.deg| == c.n
    requires forall u: nat :: u < c.n ==> c.inn[u] == C.InWords(arcs, c.n, false, u) && c.deg[u] == C.OutDegree(arcs, u)
    ensures DegreesMatch(c)
  {
    forall u: nat | u < c.n
      ensures c.inn[u] == Sources(arcs, u)
    {
      SourcesAreWords(arcs, c.n, u);
    }
    assert c.inn == SourceLists(arcs, c.n);
    forall x: nat | x < c.n
      ensures c.deg[x] == Occurs(c.inn, x)
    {
      EdgeListOccurs(arcs, c.n, x);
    }
  }

  ghost predicate Inside(s: seq<nat>, n: nat) {
    forall i :: 0 <= i < |s| ==> s[i] < n
  }

  /** What the list `s` picks from `w`. */
  ghost function Picked(s: seq<nat>, w: seq<real>): real
    requires Inside(s, |w|)
  {
    if s == [] then 0.0 else Picked(s[..|s| - 1], w) + w[s[|s| - 1]]
  }

  /** `w` added up `times` times. */
  ghost function Repeated(times: nat, w: real): real { if times == 0 then 0.0 else Repeated(times - 1, w) + w }

  lemma {:induction false} RepeatedTogether(a: nat, b: nat, w: real)
    ensures Repeated(a + b, w) == Repeated(a, w) + Repeated(b, w)
  {
    if b > 0 { RepeatedTogether(a, b - 1, w); }
  }

  lemma {:induction false} RepeatedIsTimes(a: nat, w: real)
    ensures Repeated(a, w) == a as real * w
  {
    if a > 0 {
      RepeatedIsTimes(a - 1, w);
      assert a as real * w == (a - 1) as real * w + w;
    }
  }

  /** The same, counted by vertex. */
  ghost function Spread(s: seq<nat>, w: seq<real>, m: nat): real
    requires m <= |w|
  {
    if m == 0 then 0.0 else Spread(s, w, m - 1) + Repeated(multiset(s)[m - 1], w[m - 1])
  }

  ghost function SpreadAll(lists: seq<seq<nat>>, w: seq<real>, m: nat): real
    requires m <= |w|
  {
    if m == 0 then 0.0 else SpreadAll(lists, w, m - 1) + Repeated(Occurs(lists, m - 1), w[m - 1])
  }

  lemma {:induction false} SpreadMore(s: seq<nat>, x: nat, w: seq<real>, m: nat)
    requires m <= |w| && x < |w|
    ensures Spread(s + [x], w, m) == Spread(s, w, m) + if x < m then w[x] else 0.0
  {
    if m > 0 {
      SpreadMore(s, x, w, m - 1);
      assert multiset(s + [x]) == multiset(s) + multiset{x};
      var more := if x == m - 1 then 1 else 0;
      assert multiset(s + [x])[m - 1] == multiset(s)[m - 1] + more;
      RepeatedTogether(multiset(s)[m - 1], more, w[m - 1]);
    }
  }

  lemma {:induction false} SpreadNone(w: seq<real>, m: nat)
    requires m <= |w|
    ensures Spread([], w, m) == 0.0 && SpreadAll([], w, m) == 0.0
  {
    if m > 0 { SpreadNone(w, m - 1); }
  }

  lemma {:induction false} PickedIsSpread(s: seq<nat>, w: seq<real>)
    requires Inside(s, |w|)
    ensures Picked(s, w) == Spread(s, w, |w|)
  {
    if s == [] {
      SpreadNone(w, |w|);
    } else {
      var front, x := s[..|s| - 1], s[|s| - 1];
      assert s == front + [x];
      PickedIsSpread(front, w);
      SpreadMore(front, x, w, |w|);
    }
  }

  lemma {:induction false} SpreadAllMore(lists: seq<seq<nat>>, s: seq<nat>, w: seq<real>, m: nat)
    requires m <= |w|
    ensures SpreadAll(lists + [s], w, m) == SpreadAll(lists, w, m) + Spread(s, w, m)
  {
    if m > 0 {
      SpreadAllMore(lists, s, w, m - 1);
      assert (lists + [s])[..|lists|] == lists;
      RepeatedTogether(Occurs(lists, m - 1), multiset(s)[m - 1], w[m - 1]);
    }
  }

  /** What every vertex hands along each of its out-edges. */
  ghost function Shares(c: Config, k: nat): (w: seq<real>)
    requires ValidConfig(c)
    ensures |w| == c.n
  {
    seq(c.n, x requires 0 <= x < c.n => if Active(c, x) then Rank(c, k, x) / c.deg[x] as real else 0.0)
  }

  lemma {:induction false} GatheredIsPicked(c: Config, k: nat, u: nat, i: nat)
    requires ValidConfig(c) && u < c.n && i <= |c.inn[u]|
    ensures Inside(c.inn[u][..i], c.n) && Gathered(c, k, u, i) == Picked(c.inn[u][..i], Shares(c, k))
  {
    forall j | 0 <= j < i
      ensures c.inn[u][j] < c.n
    {
      assert c.inn[u][j] in c.inn[u] && Active(c, c.inn[u][j]);
    }
    if i > 0 {
      var x := c.inn[u][i - 1];
      assert x in c.inn[u] && Active(c, x);
      GatheredIsPicked(c, k, u, i - 1);
      assert c.inn[u][..i][..i - 1] == c.inn[u][..i - 1];
    }
  }

  /** The ranks of the first `m` vertices. */
  ghost function RankSum(c: Config, k: nat, m: nat): real
    requires ValidConfig(c) && m <= c.n
  {
    if m == 0 then 0.0 else RankSum(c, k, m - 1) + Rank(c, k, m - 1)
  }

  /** The ranks of those that have out-edges. */
  ghost function ActiveSum(c: Config, k: nat, m: nat): real
    requires ValidConfig(c) && m <= c.n
  {
    if m == 0 then 0.0 else ActiveSum(c, k, m - 1) + if Active(c, m - 1) then Rank(c, k, m - 1) else 0.0
  }

  lemma {:induction false} RanksSpread(c: Config, k: nat, m: nat)
    requires ValidConfig(c) && m <= c.n
    ensures RankSum(c, k + 1, m) == 0.15 * m as real + 0.85 * SpreadAll(c.inn[..m], Shares(c, k), c.n)
  {
    if m == 0 {
      SpreadNone(Shares(c, k), c.n);
      assert c.inn[..0] == [];
    } else {
      var u: nat := m - 1;
      RanksSpread(c, k, u);
      GatheredIsPicked(c, k, u, |c.inn[u]|);
      assert c.inn[u][..|c.inn[u]|] == c.inn[u] && c.inn[..m] == c.inn[..u] + [c.inn[u]];
      PickedIsSpread(c.inn[u], Shares(c, k));
      SpreadAllMore(c.inn[..u], c.inn[u], Shares(c, k), c.n);
    }
  }

  lemma {:induction false} SpreadIsActive(c: Config, k: nat, m: nat)
    requires ValidConfig(c) && DegreesMatch(c) && m <= c.n
    ensures SpreadAll(c.inn, Shares(c, k), m) == ActiveSum(c, k, m)
  {
    if m > 0 {
      SpreadIsActive(c, k, m - 1);
      assert c.deg[m - 1] == Occurs(c.inn, m - 1);
      RepeatedIsTimes(c.deg[m - 1], Shares(c, k)[m - 1]);
    }
  }

  /** Mass balance: an iteration gives every vertex 0.15 and passes on 0.85 of what the vertices with out-edges have. */
  lemma MassBalance(c: Config, k: nat)
    requires ValidConfig(c) && DegreesMatch(c)
    ensures RankSum(c, k + 1, c.n) == 0.15 * c.n as real + 0.85 * ActiveSum(c, k, c.n)
  {
    RanksSpread(c, k, c.n);
    SpreadIsActive(c, k, c.n);
    assert c.inn[..c.n] == c.inn;
  }

  lemma {:induction false} AllActiveSum(c: Config, k: nat, m: nat)
    requires ValidConfig(c) && m <= c.n && forall u: nat :: u < c.n ==> Active(c, u)
    ensures ActiveSum(c, k, m) == RankSum(c, k, m)
  {
    if m > 0 { AllActiveSum(c, k, m - 1); }
  }

  lemma {:induction false} OnesSum(c: Config, m: nat)
    requires ValidConfig(c) && m <= c.n
    ensures RankSum(c, 0, m) == m as real
  {
    if m > 0 { OnesSum(c, m - 1); }
  }

  /** Conservation: when every vertex has an out-edge the ranks always sum to the number of vertices. */
  lemma {:induction false} MassConserved(c: Config, k: nat)
    requires ValidConfig(c) && DegreesMatch(c) && forall u: nat :: u < c.n ==> Active(c, u)
    ensures RankSum(c, k, c.n) == c.n as real
  {
    if k == 0 {
      OnesSum(c, c.n);
    } else {
      MassBalance(c, k - 1);
      AllActiveSum(c, k - 1, c.n);
      MassConserved(c, k - 1);
    }
  }

  // ---- The same of a buffer of shares ----

  /** What the vertices with out-edges have, according to a buffer of shares. */
  ghost function Kept(c: Config, shares: seq<real>, m: nat): real
    requires |shares| == |c.deg| && m <= |shares|
  {
    if m == 0 then 0.0 else Kept(c, shares, m - 1) + if Active(c, m - 1) then shares[m - 1] * c.deg[m - 1] as real else 0.0
  }

  ghost predicate HoldsShares(c: Config, shares: seq<real>, k: nat)
    requires ValidConfig(c)
  {
    |shares| == c.n && forall u: nat :: Active(c, u) ==> shares[u] == Rank(c, k, u) / c.deg[u] as real
  }

  lemma SplitAndBack(w: real, m: nat)
    requires m > 0
    ensures w / m as real * m as real == w
  {
  }

  lemma {:induction false} KeptIsActive(c: Config, shares: seq<real>, k: nat, m: nat)
    requires ValidConfig(c) && HoldsShares(c, shares, k) && m <= c.n
    ensures Kept(c, shares, m) == ActiveSum(c, k, m)
  {
    if m > 0 {
      KeptIsActive(c, shares, k, m - 1);
      if Active(c, m - 1) { SplitAndBack(Rank(c, k, m - 1), c.deg[m - 1]); }
    }
  }

  /** What a buffer of the shares after `k` rounds holds: every vertex the damped weight of the walks into it; and in
      all, if no vertex lacks out-edges, one per vertex. */
  lemma SharesLaw(c: Config, shares: seq<real>, k: nat)
    requires ValidConfig(c) && HoldsShares(c, shares, k)
    ensures forall u: nat :: Active(c, u) ==> shares[u] == Damped(c, k, u) / c.deg[u] as real
    ensures DegreesMatch(c) ==> RankSum(c, k + 1, c.n) == 0.15 * c.n as real + 0.85 * Kept(c, shares, c.n)
    ensures DegreesMatch(c) && (forall u: nat :: u < c.n ==> Active(c, u)) ==> Kept(c, shares, c.n) == c.n as real
  {
    forall u: nat | Active(c, u)
      ensures shares[u] == Damped(c, k, u) / c.deg[u] as real
    {
      RankIsDamped(c, k, u);
    }
    KeptIsActive(c, shares, k, c.n);
    if DegreesMatch(c) {
      MassBalance(c, k);
      if forall u: nat :: u < c.n ==> Active(c, u) {
        MassConserved(c, k);
        AllActiveSum(c, k, c.n);
      }
    }
  }
}
