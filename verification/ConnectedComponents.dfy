/** Connected components (push mode) on the min-propagation protocol: every label is the smallest
    vertex id that reaches the vertex, although only the worker whose CAS won activates it. */
module ConnectedComponents {
  import opened Graphs
  import opened Partitions
  import opened VertexArrays
  import opened MinPropagation
  import opened PropagationRuns
  import opened Engine

  /** An unweighted graph is one whose edges weigh nothing. */
  ghost predicate Deployment(g: Graph, parts: Parts, rep: seq<nat>, replicas: nat) {
    && WellFormed(g) && g.n <= MAX_NODES
    && Covers(parts, g.n)
    && |rep| == |parts.start|
    && (forall p :: 0 <= p < |rep| ==> rep[p] < replicas)
    && Unweighted(g)
  }

  /** `Load` stores each vertex's own id and activates it. */
  function Setup(g: Graph, parts: Parts, rep: seq<nat>, replicas: nat): Config {
    Config(g, parts, rep, replicas, seq(g.n, u requires 0 <= u => u), Below(g.n), true)
  }

  lemma SetupValid(g: Graph, parts: Parts, rep: seq<nat>, replicas: nat)
    requires Deployment(g, parts, rep, replicas)
    ensures ValidConfig(Setup(g, parts, rep, replicas))
  {
  }

  /** Correctness over every run. */
  lemma Correct(c: Config, tr: seq<State>, i: nat)
    requires Deployment(c.g, c.parts, c.rep, c.replicas) && c == Setup(c.g, c.parts, c.rep, c.replicas)
    requires ValidConfig(c) && Run(c, tr) && i < |tr| && Exited(tr[i])
    ensures Typed(c, tr[i])
    ensures forall r: nat, v: nat :: r < c.replicas && v < c.g.n ==> SmallestReaching(c.g, v, tr[i].vals[r][v])
  {
    RunExitIsLeast(c, tr, i);
    forall r: nat, v: nat | r < c.replicas && v < c.g.n
      ensures SmallestReaching(c.g, v, tr[i].vals[r][v])
    {
      LeastIsSmallest(c.g, c.init, v, tr[i].vals[r][v]);
    }
  }

  // ---- Undirected graphs: labels identify components ----

  ghost predicate Symmetric(g: Graph) {
    forall u: nat, k: nat :: HasEdge(g, u, k) ==> EdgeTo(g, g.out[u][k].dst, u)
  }

  lemma {:induction false} Join(g: Graph, a: Walk, b: Walk) returns (wk: Walk)
    requires WellFormed(g) && IsWalk(g, a) && IsWalk(g, b) && Start(b) == End(g, a)
    ensures WalkTo(g, wk, End(g, b)) && IsWalk(g, wk) && Start(wk) == Start(a)
  {
    if b.At? {
      wk := a;
    } else {
      wk := Join(g, a, b.prefix);
      wk := Then(wk, b.k);
    }
  }

  lemma {:induction false} Reverse(g: Graph, wk: Walk) returns (back: Walk)
    requires WellFormed(g) && Symmetric(g) && IsWalk(g, wk)
    ensures WalkTo(g, back, Start(wk)) && IsWalk(g, back) && Start(back) == End(g, wk)
  {
    if wk.At? {
      back := wk;
    } else {
      var rest := Reverse(g, wk.prefix);
      var u, e := End(g, wk.prefix), End(g, wk);
      assert HasEdge(g, u, wk.k) && EdgeTo(g, e, u);
      var k: nat :| HasEdge(g, e, k) && g.out[e][k].dst == u;
      var step := Then(At(e), k);
      assert IsWalk(g, step.prefix) && End(g, step.prefix) == e;
      assert IsWalk(g, step) && End(g, step) == u && Start(step) == e;
      back := Join(g, step, rest);
    }
  }

  /** When edges come in both directions, two vertices get the same label exactly when they are connected. */
  lemma LabelsAreComponents(g: Graph, u: nat, v: nat, yu: nat, yv: nat)
    requires WellFormed(g) && Symmetric(g)
    requires SmallestReaching(g, u, yu) && SmallestReaching(g, v, yv)
    ensures yu == yv <==> Reaches(g, u, v)
  {
    var wu :| WalkTo(g, wu, u) && Start(wu) == yu;
    var wv :| WalkTo(g, wv, v) && Start(wv) == yv;
    if yu == yv {
      var home := Reverse(g, wu);
      var across := Join(g, home, wv);
    } else if Reaches(g, u, v) {
      var across :| WalkTo(g, across, v) && Start(across) == u;
      var there := Join(g, wu, across);
      var back := Reverse(g, across);
      var here := Join(g, wv, back);
      assert Reaches(g, yu, v) && Reaches(g, yv, u);
    }
  }

  /** The query: load, run the rounds with no round limit, return the replicas. */
  method Query(g: Graph, parts: Parts, rep: seq<nat>, replicas: nat, pick: (nat, State) -> Action)
    returns (labels: seq<seq<nat>>, rounds: nat)
    requires Deployment(g, parts, rep, replicas)
    ensures |labels| == replicas && forall r :: 0 <= r < replicas ==> |labels[r]| == g.n
    ensures forall r: nat, v: nat :: r < replicas && v < g.n ==> SmallestReaching(g, v, labels[r][v])
    ensures rounds <= g.n
  {
    var c := Setup(g, parts, rep, replicas);
    SetupValid(g, parts, rep, replicas);
    var s;
    ghost var run;
    s, run := Coordinate(c, 0, pick);
    labels, rounds := s.vals, s.round;
    forall r: nat, v: nat | r < c.replicas && v < c.g.n
      ensures SmallestReaching(g, v, labels[r][v])
    {
      LeastIsSmallest(c.g, c.init, v, s.vals[r][v]);
    }
  }
}
