/** Replica convergence and per-round progress of the min-propagation protocol. */
module PropagationReplicas {
  import opened Graphs
  import opened Partitions
  import opened MinPropagation
  import opened PropagationSafety

  /** Worker `q` is past its CAS on `(v, y)` and has not broadcast the pair yet. */
  ghost predicate Carrying(c: Config, s: State, q: nat, v: nat, y: nat)
    requires ValidConfig(c) && Typed(c, s)
  {
    && q < |c.rep|
    && (s.workers[q].pc.Push? || s.workers[q].pc.Emit?)
    && Target(c, s.workers[q]) == v && Offer(c, s.workers[q]) == y
  }

  ghost predicate CarriedElsewhere(c: Config, s: State, r: nat, v: nat, y: nat)
    requires ValidConfig(c) && Typed(c, s)
  {
    exists q: nat :: Carrying(c, s, q, v, y) && c.rep[q] != r
  }

  /** The pair `(v, y)` will still be applied at replica `r`. */
  ghost predicate Coming(c: Config, s: State, r: nat, v: nat, y: nat)
    requires ValidConfig(c) && Typed(c, s)
  {
    r < c.replicas && (Msg(v, y) in s.net[r] || CarriedElsewhere(c, s, r, v, y))
  }

  /** Replica `r` has, or will receive, a value at most `z` for `v`. */
  ghost predicate Covered(c: Config, s: State, r: nat, v: nat, z: nat)
    requires ValidConfig(c) && Typed(c, s)
  {
    && r < c.replicas && v < c.g.n
    && (s.vals[r][v] <= z || exists y: nat :: y <= z && Coming(c, s, r, v, y))
  }

  /** `y` is the round-start value of `v`, or was broadcast for it, or is about to be. */
  ghost predicate Origin(c: Config, s: State, v: nat, y: nat)
    requires ValidConfig(c) && Typed(c, s) && v < c.g.n
  {
    y == s.base[v] || Msg(v, y) in s.sent || exists q: nat :: Carrying(c, s, q, v, y)
  }

  ghost predicate Converging(c: Config, s: State)
    requires ValidConfig(c) && Typed(c, s)
  {
    && (forall r: nat, r': nat, v: nat :: r < c.replicas && r' < c.replicas && v < c.g.n ==>
          Covered(c, s, r, v, s.vals[r'][v]))
    && (forall r: nat, m: Msg :: r < c.replicas && m in s.sent ==> Covered(c, s, r, m.v, m.y))
    && (forall r: nat, m: Msg :: r < c.replicas && m in s.net[r] ==> m in s.sent)
    && (forall q: nat, v: nat, y: nat :: Carrying(c, s, q, v, y) ==> Cell(c, s, q, v) <= y)
  }

  ghost predicate CellTraced(c: Config, s: State, r: nat, v: nat)
    requires ValidConfig(c) && Typed(c, s) && r < c.replicas && v < c.g.n
  {
    s.vals[r][v] <= s.base[v] && Origin(c, s, v, s.vals[r][v])
  }

  ghost predicate Traced(c: Config, s: State)
    requires ValidConfig(c) && Typed(c, s)
  {
    forall r: nat, v: nat {:trigger CellTraced(c, s, r, v)} {:trigger s.vals[r][v]} :: r < c.replicas && v < c.g.n ==>
      CellTraced(c, s, r, v)
  }

  lemma CarryingKept(c: Config, s: State, a: Action, q: nat, v: nat, y: nat)
    requires ValidConfig(c) && Typed(c, s) && Enabled(c, s, a) && Typed(c, Apply(c, s, a))
    requires Carrying(c, s, q, v, y)
    ensures a != Append(q) ==> Carrying(c, Apply(c, s, a), q, v, y)
    ensures a == Append(q) ==>
      Msg(v, y) in Apply(c, s, a).sent && forall r: nat :: r < c.replicas && r != c.rep[q] ==> Msg(v, y) in Apply(c, s, a).net[r]
  {
  }

  /** What a step does to one cell of one replica. */
  lemma CellStep(c: Config, s: State, a: Action, r: nat, v: nat)
    requires ValidConfig(c) && Typed(c, s) && Enabled(c, s, a) && Typed(c, Apply(c, s, a))
    requires r < c.replicas && v < c.g.n
    ensures var t := Apply(c, s, a);
      || t.vals[r][v] == s.vals[r][v]
      || (t.vals[r][v] < s.vals[r][v] && a.Cas? && c.rep[a.p] == r && Carrying(c, t, a.p, v, t.vals[r][v]))
      || (t.vals[r][v] < s.vals[r][v] && a.Deliver? && a.r == r && a.m == Msg(v, t.vals[r][v]))
  {
    match a
    case Cas(q) =>
      LowerTyped(c, s.vals, c.rep[q], Target(c, s.workers[q]), Offer(c, s.workers[q]));
    case Deliver(r', m) =>
      LowerTyped(c, s.vals, r', m.v, m.y);
    case _ =>
  }

  lemma ComingKept(c: Config, s: State, a: Action, r: nat, v: nat, y: nat)
    requires ValidConfig(c) && Typed(c, s) && Enabled(c, s, a) && Typed(c, Apply(c, s, a))
    requires v < c.g.n && Coming(c, s, r, v, y)
    ensures var t := Apply(c, s, a); Coming(c, t, r, v, y) || t.vals[r][v] <= y
  {
    var t := Apply(c, s, a);
    if Msg(v, y) in s.net[r] {
      if a == Deliver(r, Msg(v, y)) { LowerTyped(c, s.vals, r, v, y); }
    } else {
      var q: nat :| Carrying(c, s, q, v, y) && c.rep[q] != r;
      CarryingKept(c, s, a, q, v, y);
    }
  }

  lemma CoveredKept(c: Config, s: State, a: Action, r: nat, v: nat, z: nat)
    requires ValidConfig(c) && Typed(c, s) && Enabled(c, s, a) && Typed(c, Apply(c, s, a))
    requires Covered(c, s, r, v, z)
    ensures Covered(c, Apply(c, s, a), r, v, z)
  {
    CellStep(c, s, a, r, v);
    if s.vals[r][v] > z {
      var y: nat :| y <= z && Coming(c, s, r, v, y);
      ComingKept(c, s, a, r, v, y);
    }
  }

  lemma StepCoversCells(c: Config, s: State, a: Action, r: nat, r': nat, v: nat)
    requires ValidConfig(c) && Typed(c, s) && Enabled(c, s, a) && Typed(c, Apply(c, s, a))
    requires Converging(c, s) && r < c.replicas && r' < c.replicas && v < c.g.n
    ensures Covered(c, Apply(c, s, a), r, v, Apply(c, s, a).vals[r'][v])
  {
    var t := Apply(c, s, a);
    var z := t.vals[r'][v];
    CellStep(c, s, a, r', v);
    if z == s.vals[r'][v] {
      CoveredKept(c, s, a, r, v, z);
    } else if a.Cas? {
      if r != r' { assert CarriedElsewhere(c, t, r, v, z) && Coming(c, t, r, v, z); }
    } else {
      assert a.m in s.sent && Covered(c, s, r, v, z);
      CoveredKept(c, s, a, r, v, z);
    }
  }

  lemma StepCoversSent(c: Config, s: State, a: Action, r: nat, m: Msg)
    requires ValidConfig(c) && Typed(c, s) && Enabled(c, s, a) && Typed(c, Apply(c, s, a))
    requires Converging(c, s) && r < c.replicas && m in Apply(c, s, a).sent
    ensures Covered(c, Apply(c, s, a), r, m.v, m.y)
  {
    var t := Apply(c, s, a);
    if m in s.sent {
      CoveredKept(c, s, a, r, m.v, m.y);
    } else {
      assert a.Append? && Carrying(c, s, a.p, m.v, m.y);
      CellStep(c, s, a, c.rep[a.p], m.v);
      if r != c.rep[a.p] { assert Coming(c, t, r, m.v, m.y); }
    }
  }

  lemma StepCarried(c: Config, s: State, a: Action, q: nat, v: nat, y: nat)
    requires ValidConfig(c) && Typed(c, s) && Enabled(c, s, a) && Typed(c, Apply(c, s, a))
    requires Converging(c, s) && Carrying(c, Apply(c, s, a), q, v, y)
    ensures Cell(c, Apply(c, s, a), q, v) <= y
  {
    if Carrying(c, s, q, v, y) {
      CellFalls(c, s, a, q, v);
    } else {
      assert a == Cas(q);
      LowerTyped(c, s.vals, c.rep[q], v, y);
    }
  }

  lemma StepConverging(c: Config, s: State, a: Action)
    requires ValidConfig(c) && Typed(c, s) && Enabled(c, s, a) && Typed(c, Apply(c, s, a))
    requires Converging(c, s)
    ensures Converging(c, Apply(c, s, a))
  {
    var t := Apply(c, s, a);
    forall r: nat, r': nat, v: nat | r < c.replicas && r' < c.replicas && v < c.g.n
      ensures Covered(c, t, r, v, t.vals[r'][v])
    {
      StepCoversCells(c, s, a, r, r', v);
    }
    forall r: nat, m: Msg | r < c.replicas && m in t.sent
      ensures Covered(c, t, r, m.v, m.y)
    {
      StepCoversSent(c, s, a, r, m);
    }
    forall q: nat, v: nat, y: nat | Carrying(c, t, q, v, y)
      ensures Cell(c, t, q, v) <= y
    {
      StepCarried(c, s, a, q, v, y);
    }
  }

  /** An unchanged cell keeps its origin. */
  lemma OriginKept(c: Config, s: State, a: Action, v: nat, y: nat)
    requires ValidConfig(c) && Typed(c, s) && Enabled(c, s, a) && Typed(c, Apply(c, s, a))
    requires v < c.g.n && Origin(c, s, v, y)
    ensures Origin(c, Apply(c, s, a), v, y)
  {
    var t := Apply(c, s, a);
    if y != s.base[v] && Msg(v, y) !in s.sent {
      var q: nat :| Carrying(c, s, q, v, y);
      CarryingKept(c, s, a, q, v, y);
      if a != Append(q) { assert Carrying(c, t, q, v, y); }
    }
  }

  lemma StepCellTraced(c: Config, s: State, a: Action, r: nat, v: nat)
    requires ValidConfig(c) && Typed(c, s) && Enabled(c, s, a) && Typed(c, Apply(c, s, a))
    requires Converging(c, s) && r < c.replicas && v < c.g.n && CellTraced(c, s, r, v)
    ensures CellTraced(c, Apply(c, s, a), r, v)
  {
    var t := Apply(c, s, a);
    CellStep(c, s, a, r, v);
    if t.vals[r][v] == s.vals[r][v] {
      OriginKept(c, s, a, v, s.vals[r][v]);
    } else if a.Cas? {
      assert Carrying(c, t, a.p, v, t.vals[r][v]);
    } else {
      assert a.m in s.sent && a.m in t.sent;
    }
  }

  lemma StepTraced(c: Config, s: State, a: Action)
    requires ValidConfig(c) && Typed(c, s) && Enabled(c, s, a) && Typed(c, Apply(c, s, a))
    requires Converging(c, s) && Traced(c, s)
    ensures Traced(c, Apply(c, s, a))
  {
    forall r: nat, v: nat | r < c.replicas && v < c.g.n
      ensures CellTraced(c, Apply(c, s, a), r, v)
    {
      assert CellTraced(c, s, r, v);
      StepCellTraced(c, s, a, r, v);
    }
  }

  /** At the end of a round all replicas agree, on the minimum of the round-start value and everything
      broadcast during the round. */
  lemma ReplicasAgree(c: Config, s: State)
    requires ValidConfig(c) && Typed(c, s) && Converging(c, s) && Traced(c, s) && RoundOver(s)
    ensures forall r: nat, r': nat, v: nat :: r < c.replicas && r' < c.replicas && v < c.g.n ==>
      s.vals[r][v] == s.vals[r'][v]
    ensures forall r: nat, v: nat :: r < c.replicas && v < c.g.n ==>
      && s.vals[r][v] <= s.base[v]
      && (forall y: nat :: Msg(v, y) in s.sent ==> s.vals[r][v] <= y)
      && (s.vals[r][v] == s.base[v] || Msg(v, s.vals[r][v]) in s.sent)
  {
    forall r: nat, v: nat, z: nat | Covered(c, s, r, v, z)
      ensures s.vals[r][v] <= z
    {
    }
    forall r: nat, v: nat | r < c.replicas && v < c.g.n
      ensures s.vals[r][v] == s.base[v] || Msg(v, s.vals[r][v]) in s.sent
    {
      assert CellTraced(c, s, r, v);
    }
    forall r: nat, r': nat, v: nat | r < c.replicas && r' < c.replicas && v < c.g.n
      ensures s.vals[r][v] <= s.vals[r'][v]
    {
      assert Covered(c, s, r, v, s.vals[r'][v]);
    }
    forall r: nat, v: nat, y: nat | r < c.replicas && v < c.g.n && Msg(v, y) in s.sent
      ensures s.vals[r][v] <= y
    {
      assert Covered(c, s, r, Msg(v, y).v, Msg(v, y).y);
    }
  }

  // ---- Progress within a round ----

  /** Vertex `u` still has all its edges to go in this round. */
  ghost predicate Unscanned(s: State, p: nat, u: nat) {
    p < |s.workers| && ((s.workers[p].pc.Waiting? && u in s.active) || u in s.workers[p].queue)
  }

  /** Every edge not yet scanned this round from the round-start value is still to be scanned. */
  ghost predicate RoundWork(c: Config, s: State)
    requires ValidConfig(c) && Typed(c, s)
  {
    && (forall p: nat :: p < |c.rep| && Busy(s.workers[p]) ==> s.workers[p].val <= s.base[s.workers[p].x])
    && (forall p: nat, u: nat, k: nat :: Owns(c.parts, p, u) && HasEdge(c.g, u, k) ==>
          || Cell(c, s, p, c.g.out[u][k].dst) <= s.base[u] + c.g.out[u][k].w
          || Unscanned(s, p, u) || Scanning(s, p, u, k))
  }

  lemma UnscannedKept(c: Config, s: State, a: Action, p: nat, u: nat, k: nat)
    requires ValidConfig(c) && Typed(c, s) && Enabled(c, s, a) && Typed(c, Apply(c, s, a))
    requires Owns(c.parts, p, u) && Unscanned(s, p, u)
    ensures Unscanned(Apply(c, s, a), p, u) || Scanning(Apply(c, s, a), p, u, k)
  {
    if a == Pop(p) && s.workers[p].queue[0] != u && u in s.workers[p].queue {
      assert u in s.workers[p].queue[1..];
    }
  }

  lemma RoundEdgeKept(c: Config, s: State, a: Action, p: nat, u: nat, k: nat)
    requires ValidConfig(c) && Typed(c, s) && Enabled(c, s, a) && Typed(c, Apply(c, s, a))
    requires RoundWork(c, s) && Owns(c.parts, p, u) && HasEdge(c.g, u, k)
    ensures var t := Apply(c, s, a);
      || Cell(c, t, p, c.g.out[u][k].dst) <= t.base[u] + c.g.out[u][k].w
      || Unscanned(t, p, u) || Scanning(t, p, u, k)
  {
    CellFalls(c, s, a, p, c.g.out[u][k].dst);
    if Unscanned(s, p, u) {
      UnscannedKept(c, s, a, p, u, k);
    } else if Scanning(s, p, u, k) && !Scanning(Apply(c, s, a), p, u, k) {
      PassedEdgeRelaxed(c, s, a, p, u, k);
    }
  }

  lemma CopiesAreFresh(c: Config, s: State, a: Action, p: nat)
    requires ValidConfig(c) && Typed(c, s) && Enabled(c, s, a) && Typed(c, Apply(c, s, a))
    requires Traced(c, s) && RoundWork(c, s) && p < |c.rep| && Busy(Apply(c, s, a).workers[p])
    ensures Apply(c, s, a).workers[p].val <= Apply(c, s, a).base[Apply(c, s, a).workers[p].x]
  {
    if a == Pop(p) { assert s.workers[p].queue[0] in s.workers[p].queue; }
  }

  lemma StepRoundWork(c: Config, s: State, a: Action)
    requires ValidConfig(c) && Typed(c, s) && Enabled(c, s, a) && Typed(c, Apply(c, s, a))
    requires Traced(c, s) && RoundWork(c, s)
    ensures RoundWork(c, Apply(c, s, a))
  {
    forall p: nat | p < |c.rep| && Busy(Apply(c, s, a).workers[p])
      ensures Apply(c, s, a).workers[p].val <= Apply(c, s, a).base[Apply(c, s, a).workers[p].x]
    {
      CopiesAreFresh(c, s, a, p);
    }
    forall p: nat, u: nat, k: nat | Owns(c.parts, p, u) && HasEdge(c.g, u, k)
      ensures var t := Apply(c, s, a);
        || Cell(c, t, p, c.g.out[u][k].dst) <= t.base[u] + c.g.out[u][k].w
        || Unscanned(t, p, u) || Scanning(t, p, u, k)
    {
      RoundEdgeKept(c, s, a, p, u, k);
    }
  }

  /** The values are already least prices. */
  ghost predicate Optimal(c: Config, val: seq<nat>)
    requires ValidConfig(c) && |val| == c.g.n
  {
    forall v: nat :: v < c.g.n ==> Least(c.g, c.init, v, val[v])
  }

  /** A round that starts from least prices activates nothing. */
  ghost predicate QuietIfOptimal(c: Config, s: State)
    requires ValidConfig(c) && Typed(c, s)
  {
    Optimal(c, s.base) ==> forall p: nat :: p < |c.rep| ==> s.workers[p].next == {} && !OnEdge(s.workers[p])
  }

  lemma OptimalRefusesOffers(c: Config, s: State, p: nat)
    requires ValidConfig(c) && Typed(c, s) && p < |c.rep| && Sound(c, s) && Traced(c, s) && Optimal(c, s.base)
    requires s.workers[p].pc.Scan? && s.workers[p].i < |c.g.out[s.workers[p].x]|
    ensures Cell(c, s, p, Target(c, s.workers[p])) <= Offer(c, s.workers[p])
  {
    var w := s.workers[p];
    OfferRealized(c, p, w);
    var wk :| WalkTo(c.g, wk, Target(c, w)) && Price(c.g, c.init, wk) == Offer(c, w);
    assert Least(c.g, c.init, Target(c, w), s.base[Target(c, w)]);
  }

  /** A worker whose checks fail activates nothing. */
  lemma RefusedStaysQuiet(c: Config, s: State, a: Action, p: nat)
    requires ValidConfig(c) && Typed(c, s) && Enabled(c, s, a) && Typed(c, Apply(c, s, a)) && p < |c.rep|
    requires s.workers[p].next == {} && !OnEdge(s.workers[p])
    requires s.workers[p].pc.Scan? && s.workers[p].i < |c.g.out[s.workers[p].x]| ==>
      Cell(c, s, p, Target(c, s.workers[p])) <= Offer(c, s.workers[p])
    ensures Apply(c, s, a).workers[p].next == {} && !OnEdge(Apply(c, s, a).workers[p])
  {
  }

  lemma QuietKept(c: Config, s: State, a: Action, p: nat)
    requires ValidConfig(c) && Typed(c, s) && Enabled(c, s, a) && Typed(c, Apply(c, s, a)) && p < |c.rep|
    requires Sound(c, s) && Traced(c, s) && Optimal(c, s.base) && s.workers[p].next == {} && !OnEdge(s.workers[p])
    ensures Apply(c, s, a).workers[p].next == {} && !OnEdge(Apply(c, s, a).workers[p])
  {
    if s.workers[p].pc.Scan? && s.workers[p].i < |c.g.out[s.workers[p].x]| { OptimalRefusesOffers(c, s, p); }
    RefusedStaysQuiet(c, s, a, p);
  }

  lemma StepQuiet(c: Config, s: State, a: Action)
    requires ValidConfig(c) && Typed(c, s) && Enabled(c, s, a) && Typed(c, Apply(c, s, a))
    requires Sound(c, s) && Traced(c, s) && QuietIfOptimal(c, s)
    ensures QuietIfOptimal(c, Apply(c, s, a))
  {
    assert Apply(c, s, a).base == s.base;
    if Optimal(c, s.base) {
      forall p: nat | p < |c.rep|
        ensures Apply(c, s, a).workers[p].next == {} && !OnEdge(Apply(c, s, a).workers[p])
      {
        QuietKept(c, s, a, p);
      }
    }
  }
}
