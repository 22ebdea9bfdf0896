/** Single-source shortest paths from vertex 0 on the min-propagation protocol. */
module Sssp {
  import opened Graphs
  import opened Partitions
  import opened Sums
  import opened VertexArrays
  import opened MinPropagation
  import opened PropagationRuns
  import opened PropagationTermination
  import opened Engine

  const INF: nat := 0x7fff_ffff - 1000

  /** Any placement of the partitions on replicas; weights are non-negative int32 values. */
  ghost predicate Deployment(g: Graph, parts: Parts, rep: seq<nat>, replicas: nat) {
    && WellFormed(g) && g.n <= MAX_NODES
    && Covers(parts, g.n)
    && |rep| == |parts.start|
    && (forall p :: 0 <= p < |rep| ==> rep[p] < replicas)
    && (forall u: nat, k: nat :: HasEdge(g, u, k) ==> g.out[u][k].w < 0x8000_0000)
  }

  /** What `Load` stores for a vertex, and whether it activates it. */
  function LoadVal(u: nat): nat { if u != 0 then INF else 0 }

  function Setup(g: Graph, parts: Parts, rep: seq<nat>, replicas: nat): Config {
    Config(g, parts, rep, replicas, seq(g.n, u requires 0 <= u => LoadVal(u)),
           if g.n == 0 then {} else {0}, false)
  }

  /** The setup meets what the protocol needs; in particular no `val + w` can wrap. */
  lemma SetupValid(g: Graph, parts: Parts, rep: seq<nat>, replicas: nat)
    requires Deployment(g, parts, rep, replicas)
    ensures ValidConfig(Setup(g, parts, rep, replicas))
  {
  }

  /** A walk from the source. */
  ghost predicate FromSource(g: Graph, wk: Walk, v: nat)
    requires WellFormed(g)
  {
    WalkTo(g, wk, v) && Start(wk) == 0
  }

  ghost predicate Distance(g: Graph, v: nat, d: nat)
    requires WellFormed(g)
  {
    && (exists wk :: FromSource(g, wk, v) && Cost(g, wk) == d)
    && (forall wk :: FromSource(g, wk, v) ==> d <= Cost(g, wk))
  }

  /** `y` is the true distance capped at 2147482647, which is also the value when the source does not reach `v`. */
  ghost predicate CappedDistance(g: Graph, v: nat, y: nat)
    requires WellFormed(g)
  {
    && (forall d: nat :: Distance(g, v, d) ==> y == if d < 2147482647 then d else 2147482647)
    && ((forall wk :: !FromSource(g, wk, v)) ==> y == 2147482647)
    && (forall wk :: FromSource(g, wk, v) ==> y <= Cost(g, wk))
    && (y < 2147482647 ==> Distance(g, v, y))
    && y <= 2147482647
  }

  // ---- When the cap leaves the distances alone ----

  /** `y` is the distance, or says that there is none. */
  ghost predicate ExactDistance(g: Graph, v: nat, y: nat)
    requires WellFormed(g)
  {
    if Reaches(g, 0, v) then y < 2147482647 && Distance(g, v, y) else y == 2147482647
  }

  ghost predicate WeightsAtMost(g: Graph, m: nat) {
    forall u: nat, k: nat :: HasEdge(g, u, k) ==> g.out[u][k].w <= m
  }

  /** No walk of fewer than `n` edges can cost as much as the cap. */
  ghost predicate FarFromCap(g: Graph) {
    exists m: nat :: WeightsAtMost(g, m) && (g.n - 1) * m < 2147482647
  }

  lemma {:induction false} CostAtMost(g: Graph, wk: Walk, m: nat)
    requires WellFormed(g) && IsWalk(g, wk) && WeightsAtMost(g, m)
    ensures Cost(g, wk) <= Len(wk) * m
  {
    if wk.Then? {
      CostAtMost(g, wk.prefix, m);
      assert HasEdge(g, End(g, wk.prefix), wk.k);
      assert Len(wk) * m == Len(wk.prefix) * m + m;
    }
  }

  lemma CheapWalk(g: Graph, wk: Walk, m: nat) returns (short: Walk)
    requires WellFormed(g) && IsWalk(g, wk) && WeightsAtMost(g, m)
    ensures WalkTo(g, short, End(g, wk)) && Start(short) == Start(wk) && Cost(g, short) <= (g.n - 1) * m
  {
    short := CutCycles(g, wk);
    CostAtMost(g, short, m);
    MulMonotone(Len(short), g.n - 1, m);
  }

  /** A capped distance is then exact, because a cheapest walk needs fewer than `n` edges. */
  lemma CappedIsExact(g: Graph, v: nat, y: nat)
    requires WellFormed(g) && FarFromCap(g) && CappedDistance(g, v, y)
    ensures ExactDistance(g, v, y)
  {
    if Reaches(g, 0, v) {
      var m: nat :| WeightsAtMost(g, m) && (g.n - 1) * m < 2147482647;
      var wk :| WalkTo(g, wk, v) && Start(wk) == 0;
      var short := CheapWalk(g, wk, m);
      assert FromSource(g, short, v) && y <= Cost(g, short);
    } else {
      assert forall wk :: !FromSource(g, wk, v);
    }
  }

  // ---- The protocol's least price is the capped distance ----

  lemma LeastIsDistance(c: Config, v: nat, y: nat)
    requires Deployment(c.g, c.parts, c.rep, c.replicas) && c == Setup(c.g, c.parts, c.rep, c.replicas)
    requires v < c.g.n && Least(c.g, c.init, v, y)
    ensures CappedDistance(c.g, v, y)
  {
    var wk :| WalkTo(c.g, wk, v) && Price(c.g, c.init, wk) == y;
    StartInGraph(c.g, wk);
    assert WalkTo(c.g, At(v), v) && Price(c.g, c.init, At(v)) == c.init[v] <= INF;
    if Start(wk) == 0 { assert FromSource(c.g, wk, v); }
    forall other | FromSource(c.g, other, v)
      ensures y <= Cost(c.g, other)
    {
      assert Price(c.g, c.init, other) == Cost(c.g, other);
    }
    forall d: nat | Distance(c.g, v, d)
      ensures y == if d < 2147482647 then d else 2147482647
    {
      var best :| FromSource(c.g, best, v) && Cost(c.g, best) == d;
    }
  }

  /** Correctness over every run: however the workers interleave, when the coordinator's loop has ended
      every replica holds the capped distance of every vertex; the distance itself in a graph far from the cap. */
  lemma Correct(c: Config, tr: seq<State>, i: nat)
    requires Deployment(c.g, c.parts, c.rep, c.replicas) && c == Setup(c.g, c.parts, c.rep, c.replicas)
    requires ValidConfig(c) && Run(c, tr) && i < |tr| && Exited(tr[i])
    ensures Typed(c, tr[i])
    ensures forall r: nat, v: nat :: r < c.replicas && v < c.g.n ==> CappedDistance(c.g, v, tr[i].vals[r][v])
    ensures FarFromCap(c.g) ==>
      forall r: nat, v: nat :: r < c.replicas && v < c.g.n ==> ExactDistance(c.g, v, tr[i].vals[r][v])
  {
    RunExitIsLeast(c, tr, i);
    forall r: nat, v: nat | r < c.replicas && v < c.g.n
      ensures CappedDistance(c.g, v, tr[i].vals[r][v])
      ensures FarFromCap(c.g) ==> ExactDistance(c.g, v, tr[i].vals[r][v])
    {
      LeastIsDistance(c, v, tr[i].vals[r][v]);
      if FarFromCap(c.g) { CappedIsExact(c.g, v, tr[i].vals[r][v]); }
    }
  }

  lemma OnEdgeExact(c: Config, s: State, p: nat)
    requires ValidConfig(c) && Typed(c, s) && p < |c.rep| && OnEdge(s.workers[p])
    ensures var w := s.workers[p];
      w.x < c.g.n && w.i < |c.g.out[w.x]| && Offer(c, w) == w.val + c.g.out[w.x][w.i].w < c.init[Target(c, w)]
  {
    PropagationSafety.OfferIsSum(c, p, s.workers[p]);
  }

  /** In every state of every run: a value about to be written is the exact sum, not wrapped, and below the cap. */
  lemma NoWrap(c: Config, tr: seq<State>, i: nat, p: nat)
    requires Deployment(c.g, c.parts, c.rep, c.replicas) && c == Setup(c.g, c.parts, c.rep, c.replicas)
    requires ValidConfig(c) && Run(c, tr) && i < |tr| && p < |c.rep| && p < |tr[i].workers|
    requires OnEdge(tr[i].workers[p])
    ensures var w := tr[i].workers[p];
      w.x < c.g.n && w.i < |c.g.out[w.x]| && Offer(c, w) == w.val + c.g.out[w.x][w.i].w < 2147482647
  {
    RunInv(c, tr, i);
    OnEdgeExact(c, tr[i], p);
  }

  /** The query: load, run the rounds with no round limit, return the replicas. They hold the capped distances, and in
      a graph far from the cap the distances, with 2147482647 exactly for the vertices that no walk reaches. */
  method Query(g: Graph, parts: Parts, rep: seq<nat>, replicas: nat, pick: (nat, State) -> Action)
    returns (dist: seq<seq<nat>>, rounds: nat)
    requires Deployment(g, parts, rep, replicas)
    ensures |dist| == replicas && forall r :: 0 <= r < replicas ==> |dist[r]| == g.n
    ensures forall r: nat, v: nat :: r < replicas && v < g.n ==> CappedDistance(g, v, dist[r][v])
    ensures FarFromCap(g) ==> forall r: nat, v: nat :: r < replicas && v < g.n ==> ExactDistance(g, v, dist[r][v])
    ensures rounds <= g.n
  {
    var c := Setup(g, parts, rep, replicas);
    SetupValid(g, parts, rep, replicas);
    var s;
    ghost var run;
    s, run := Coordinate(c, 0, pick);
    dist, rounds := s.vals, s.round;
    forall r: nat, v: nat | r < c.replicas && v < c.g.n
      ensures CappedDistance(g, v, dist[r][v])
      ensures FarFromCap(g) ==> ExactDistance(g, v, dist[r][v])
    {
      LeastIsDistance(c, v, s.vals[r][v]);
      if FarFromCap(g) { CappedIsExact(g, v, dist[r][v]); }
    }
  }
}
