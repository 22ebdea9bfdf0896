/** Weighted directed graphs, walks in them, and the least cost of a walk.

    The reference definitions every min-propagation result is stated against:
    nothing here mentions partitions, workers or messages. */
module Graphs {
  datatype Edge = Edge(dst: nat, w: nat)

  /** `out[u]` lists the edges leaving `u`, in the order the CSR arrays give them. */
  datatype Graph = Graph(n: nat, out: seq<seq<Edge>>)

  ghost predicate WellFormed(g: Graph) {
    && |g.out| == g.n
    && forall u, k :: 0 <= u < g.n && 0 <= k < |g.out[u]| ==> g.out[u][k].dst < g.n
  }

  ghost predicate HasEdge(g: Graph, u: nat, k: nat) {
    u < g.n && u < |g.out| && k < |g.out[u]|
  }

  /** A walk: start at a vertex, then follow the `k`-th edge out of wherever the prefix ends. */
  datatype Walk = At(v: nat) | Then(prefix: Walk, k: nat)

  ghost function Start(wk: Walk): nat {
    match wk case At(v) => v case Then(p, _) => Start(p)
  }

  ghost predicate IsWalk(g: Graph, wk: Walk)
    requires WellFormed(g)
    decreases wk, 0
  {
    match wk
    case At(v) => v < g.n
    case Then(p, k) => IsWalk(g, p) && HasEdge(g, End(g, p), k)
  }

  ghost function End(g: Graph, wk: Walk): (v: nat)
    requires WellFormed(g) && IsWalk(g, wk)
    ensures v < g.n
    decreases wk, 1
  {
    match wk
    case At(v) => v
    case Then(p, k) => g.out[End(g, p)][k].dst
  }

  ghost function Cost(g: Graph, wk: Walk): nat
    requires WellFormed(g) && IsWalk(g, wk)
  {
    match wk
    case At(_) => 0
    case Then(p, k) => Cost(g, p) + g.out[End(g, p)][k].w
  }

  ghost function Len(wk: Walk): nat {
    match wk case At(_) => 0 case Then(p, _) => Len(p) + 1
  }

  ghost predicate WalkTo(g: Graph, wk: Walk, v: nat)
    requires WellFormed(g)
  {
    IsWalk(g, wk) && End(g, wk) == v
  }

  lemma StartInGraph(g: Graph, wk: Walk)
    requires WellFormed(g) && IsWalk(g, wk)
    ensures Start(wk) < g.n
  {
  }

  /** The price of a walk when entering the graph at vertex `s` costs `init[s]`. */
  ghost function Price(g: Graph, init: seq<nat>, wk: Walk): nat
    requires WellFormed(g) && |init| == g.n && IsWalk(g, wk)
  {
    StartInGraph(g, wk);
    init[Start(wk)] + Cost(g, wk)
  }

  /** `y` is the price of some walk to `v`. */
  ghost predicate Realized(g: Graph, init: seq<nat>, v: nat, y: nat)
    requires WellFormed(g) && |init| == g.n
  {
    exists wk :: WalkTo(g, wk, v) && Price(g, init, wk) == y
  }

  /** `y` undercuts every walk to `v` of at most `k` edges. */
  ghost predicate UndercutsShort(g: Graph, init: seq<nat>, v: nat, y: nat, k: nat)
    requires WellFormed(g) && |init| == g.n
  {
    forall wk :: WalkTo(g, wk, v) && Len(wk) <= k ==> y <= Price(g, init, wk)
  }

  /** `y` is the least price of a walk to `v`. */
  ghost predicate Least(g: Graph, init: seq<nat>, v: nat, y: nat)
    requires WellFormed(g) && |init| == g.n
  {
    && Realized(g, init, v, y)
    && forall wk :: WalkTo(g, wk, v) ==> y <= Price(g, init, wk)
  }

  lemma RealizedStart(g: Graph, init: seq<nat>, v: nat)
    requires WellFormed(g) && |init| == g.n && v < g.n
    ensures Realized(g, init, v, init[v])
  {
    assert WalkTo(g, At(v), v) && Price(g, init, At(v)) == init[v];
  }

  lemma RealizedStep(g: Graph, init: seq<nat>, u: nat, k: nat, y: nat)
    requires WellFormed(g) && |init| == g.n && HasEdge(g, u, k) && Realized(g, init, u, y)
    ensures Realized(g, init, g.out[u][k].dst, y + g.out[u][k].w)
  {
    var wk :| WalkTo(g, wk, u) && Price(g, init, wk) == y;
    var longer := Then(wk, k);
    assert WalkTo(g, longer, g.out[u][k].dst) && Price(g, init, longer) == y + g.out[u][k].w;
  }

  // ---- Reachability ----

  ghost predicate EdgeTo(g: Graph, u: nat, v: nat) {
    exists k: nat :: HasEdge(g, u, k) && g.out[u][k].dst == v
  }

  ghost predicate Reaches(g: Graph, u: nat, v: nat)
    requires WellFormed(g)
  {
    exists wk :: WalkTo(g, wk, v) && Start(wk) == u
  }

  ghost predicate SmallestReaching(g: Graph, v: nat, y: nat)
    requires WellFormed(g)
  {
    Reaches(g, y, v) && forall u: nat :: Reaches(g, u, v) ==> y <= u
  }

  lemma ReachesSelf(g: Graph, v: nat)
    requires WellFormed(g) && v < g.n
    ensures Reaches(g, v, v)
  {
    assert WalkTo(g, At(v), v) && Start(At(v)) == v;
  }

  lemma ReachesNext(g: Graph, s: nat, u: nat, v: nat)
    requires WellFormed(g) && Reaches(g, s, u) && EdgeTo(g, u, v)
    ensures Reaches(g, s, v)
  {
    var wk :| WalkTo(g, wk, u) && Start(wk) == s;
    var k: nat :| HasEdge(g, u, k) && g.out[u][k].dst == v;
    assert WalkTo(g, Then(wk, k), v) && Start(Then(wk, k)) == s;
  }

  // ---- Walks need fewer than n edges ----

  /** The vertices a walk visits, in order. */
  ghost function Visits(g: Graph, wk: Walk): (s: seq<nat>)
    requires WellFormed(g) && IsWalk(g, wk)
    ensures |s| == Len(wk) + 1 && s[Len(wk)] == End(g, wk)
    ensures forall i :: 0 <= i < |s| ==> s[i] < g.n
  {
    match wk
    case At(v) => [v]
    case Then(p, k) => Visits(g, p) + [End(g, wk)]
  }

  ghost function Prefix(wk: Walk, i: nat): (p: Walk)
    requires i <= Len(wk)
    ensures Len(p) == i && Start(p) == Start(wk)
  {
    if i == Len(wk) then wk else Prefix(wk.prefix, i)
  }

  lemma {:induction false} PrefixIsWalk(g: Graph, wk: Walk, i: nat)
    requires WellFormed(g) && IsWalk(g, wk) && i <= Len(wk)
    ensures IsWalk(g, Prefix(wk, i))
    ensures End(g, Prefix(wk, i)) == Visits(g, wk)[i]
    ensures Cost(g, Prefix(wk, i)) <= Cost(g, wk)
  {
    if i < Len(wk) { PrefixIsWalk(g, wk.prefix, i); }
  }

  /** The edges of `wk` after its `j`-th vertex, replayed behind `base`. */
  ghost function Replay(wk: Walk, j: nat, base: Walk): Walk
    requires j <= Len(wk)
  {
    if j == Len(wk) then base else Then(Replay(wk.prefix, j, base), wk.k)
  }

  lemma {:induction false} ReplayIsWalk(g: Graph, wk: Walk, j: nat, base: Walk)
    requires WellFormed(g) && IsWalk(g, wk) && j <= Len(wk)
    requires IsWalk(g, base) && End(g, base) == Visits(g, wk)[j]
    requires IsWalk(g, Prefix(wk, j)) && Cost(g, base) <= Cost(g, Prefix(wk, j))
    ensures WalkTo(g, Replay(wk, j, base), End(g, wk))
    ensures Start(Replay(wk, j, base)) == Start(base)
    ensures Cost(g, Replay(wk, j, base)) <= Cost(g, wk)
    ensures Len(Replay(wk, j, base)) == Len(base) + Len(wk) - j
  {
    if j < Len(wk) { ReplayIsWalk(g, wk.prefix, j, base); }
  }

  function Below(n: nat): (s: set<nat>)
    ensures forall x: nat :: x in s <==> x < n
    ensures |s| == n
  {
    if n == 0 then {} else Below(n - 1) + {n - 1}
  }

  ghost function Elems(s: seq<nat>): set<nat> {
    set x | x in s
  }

  lemma {:induction false} DistinctSize(s: seq<nat>)
    requires forall i, j :: 0 <= i < j < |s| ==> s[i] != s[j]
    ensures |Elems(s)| == |s|
  {
    if s != [] {
      var last := |s| - 1;
      DistinctSize(s[..last]);
      assert Elems(s) == Elems(s[..last]) + {s[last]};
      assert s[last] !in Elems(s[..last]);
    }
  }

  lemma SubsetSize(a: set<nat>, b: set<nat>)
    requires a <= b
    ensures |a| <= |b|
  {
    assert b == a + (b - a);
  }

  lemma Pigeonhole(s: seq<nat>, n: nat) returns (i: nat, j: nat)
    requires |s| > n && forall i :: 0 <= i < |s| ==> s[i] < n
    ensures i < j < |s| && s[i] == s[j]
  {
    if forall i, j :: 0 <= i < j < |s| ==> s[i] != s[j] {
      DistinctSize(s);
      SubsetSize(Elems(s), Below(n));
      assert false;
    }
    i, j :| 0 <= i < j < |s| && s[i] == s[j];
  }

  lemma {:induction false} CostMonotone(g: Graph, wk: Walk, i: nat, j: nat)
    requires WellFormed(g) && IsWalk(g, wk) && i <= j <= Len(wk)
    requires IsWalk(g, Prefix(wk, i)) && IsWalk(g, Prefix(wk, j))
    ensures Cost(g, Prefix(wk, i)) <= Cost(g, Prefix(wk, j))
  {
    if j < Len(wk) {
      PrefixIsWalk(g, wk.prefix, i);
      PrefixIsWalk(g, wk.prefix, j);
      CostMonotone(g, wk.prefix, i, j);
    } else {
      PrefixIsWalk(g, wk, i);
    }
  }

  /** Cutting cycles: every walk can be replaced by one with fewer than `n` edges, the same ends
      and no greater cost. */
  lemma {:induction false} CutCycles(g: Graph, wk: Walk) returns (short: Walk)
    requires WellFormed(g) && IsWalk(g, wk)
    ensures WalkTo(g, short, End(g, wk)) && Start(short) == Start(wk)
    ensures Cost(g, short) <= Cost(g, wk) && Len(short) < g.n
    decreases Len(wk)
  {
    if Len(wk) < g.n {
      short := wk;
    } else {
      var i, j := Pigeonhole(Visits(g, wk), g.n);
      PrefixIsWalk(g, wk, i);
      PrefixIsWalk(g, wk, j);
      var base := Prefix(wk, i);
      CostMonotone(g, wk, i, j);
      ReplayIsWalk(g, wk, j, base);
      short := CutCycles(g, Replay(wk, j, base));
    }
  }

  /** A price that undercuts all walks of fewer than `n` edges undercuts all walks. */
  lemma ShortWalksSuffice(g: Graph, init: seq<nat>, v: nat, y: nat)
    requires WellFormed(g) && |init| == g.n && 0 < g.n
    requires UndercutsShort(g, init, v, y, g.n - 1)
    ensures forall wk :: WalkTo(g, wk, v) ==> y <= Price(g, init, wk)
  {
    forall wk | WalkTo(g, wk, v)
      ensures y <= Price(g, init, wk)
    {
      var short := CutCycles(g, wk);
      assert WalkTo(g, short, v) && y <= Price(g, init, short);
    }
  }

  // ---- Local conditions that pin the least price ----

  /** No edge can still lower a value. */
  ghost predicate Stable(g: Graph, val: seq<nat>)
    requires WellFormed(g) && |val| == g.n
  {
    forall u: nat, k: nat :: HasEdge(g, u, k) ==> val[g.out[u][k].dst] <= val[u] + g.out[u][k].w
  }

  lemma {:induction false} StableUndercuts(g: Graph, init: seq<nat>, val: seq<nat>, wk: Walk)
    requires WellFormed(g) && |init| == |val| == g.n && Stable(g, val)
    requires forall v :: 0 <= v < g.n ==> val[v] <= init[v]
    requires IsWalk(g, wk)
    ensures val[End(g, wk)] <= Price(g, init, wk)
  {
    if wk.Then? {
      StableUndercuts(g, init, val, wk.prefix);
      assert HasEdge(g, End(g, wk.prefix), wk.k);
    }
  }

  /** Realized values that no edge can lower are exactly the least prices. */
  lemma StableIsLeast(g: Graph, init: seq<nat>, val: seq<nat>)
    requires WellFormed(g) && |init| == |val| == g.n
    requires forall v :: 0 <= v < g.n ==> val[v] <= init[v] && Realized(g, init, v, val[v])
    requires Stable(g, val)
    ensures forall v :: 0 <= v < g.n ==> Least(g, init, v, val[v])
  {
    forall v, wk | 0 <= v < g.n && WalkTo(g, wk, v)
      ensures val[v] <= Price(g, init, wk)
    {
      StableUndercuts(g, init, val, wk);
    }
  }

  // ---- Unweighted graphs whose vertices start with their own ids ----

  ghost predicate Unweighted(g: Graph) {
    forall u: nat, k: nat :: HasEdge(g, u, k) ==> g.out[u][k].w == 0
  }

  ghost predicate OwnIds(g: Graph, init: seq<nat>) {
    |init| == g.n && forall u: nat :: u < g.n ==> init[u] == u
  }

  lemma {:induction false} FreeWalk(g: Graph, wk: Walk)
    requires WellFormed(g) && IsWalk(g, wk) && Unweighted(g)
    ensures Cost(g, wk) == 0
  {
    if wk.Then? {
      FreeWalk(g, wk.prefix);
      assert HasEdge(g, End(g, wk.prefix), wk.k);
    }
  }

  /** The least price is then the smallest id that reaches the vertex. */
  lemma LeastIsSmallest(g: Graph, init: seq<nat>, v: nat, y: nat)
    requires WellFormed(g) && Unweighted(g) && OwnIds(g, init) && v < g.n && Least(g, init, v, y)
    ensures SmallestReaching(g, v, y)
  {
    var wk :| WalkTo(g, wk, v) && Price(g, init, wk) == y;
    FreeWalk(g, wk);
    StartInGraph(g, wk);
    forall u: nat | Reaches(g, u, v)
      ensures y <= u
    {
      var other :| WalkTo(g, other, v) && Start(other) == u;
      FreeWalk(g, other);
      StartInGraph(g, other);
      assert Price(g, init, other) == u;
    }
  }
}
