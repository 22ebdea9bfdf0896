/** The breadth-first search driven to its end: every interleaving of a round is finite, although a worker
    that lost the race for a vertex still pushes it. */
module BfsSearch {
  import opened Graphs
  import opened Partitions
  import opened Sums
  import opened Worklists
  import opened Bfs

  // ---- The measure ----

  /** The vertices worker `p` may still activate: those still unmarked, and the one it is about to push. */
  ghost function Chances(c: Config, s: State, p: nat): (v: set<nat>)
    requires ValidConfig(c) && Typed(c, s) && p < |s.workers|
  {
    Unmarked(s.parent) + (if OnEdge(s.workers[p]) then {Target(c, s.workers[p])} else {})
  }

  ghost function AllChances(c: Config, s: State): (d: seq<nat>)
    requires ValidConfig(c) && Typed(c, s)
    ensures |d| == |s.workers|
  {
    seq(|s.workers|, p requires 0 <= p < |s.workers| => |Chances(c, s, p)|)
  }

  ghost function ScanCost(c: Config, w: Worker): nat
    requires ValidConfig(c) && (Busy(w) ==> w.x < c.g.n && w.i <= |c.g.out[w.x]|)
    requires OnEdge(w) ==> w.i < |c.g.out[w.x]|
  {
    match w.pc
    case Scan => 4 * (|c.g.out[w.x]| - w.i) + 1
    case Claim => 4 * (|c.g.out[w.x]| - w.i)
    case Push => 4 * (|c.g.out[w.x]| - w.i) - 1
    case _ => 0
  }

  ghost function Load(c: Config, s: State, p: nat): nat
    requires ValidConfig(c) && Typed(c, s) && p < |s.workers|
  {
    var w := s.workers[p];
    match w.pc
    case Waiting => 2 + Sum(VertexCosts(c.g, ActiveList(c.parts.start[p], c.parts.size[p], s.active)))
    case Done => 0
    case _ => 1 + Sum(VertexCosts(c.g, w.queue)) + ScanCost(c, w)
  }

  ghost function Loads(c: Config, s: State): (d: seq<nat>)
    requires ValidConfig(c) && Typed(c, s)
    ensures |d| == |s.workers|
  {
    seq(|s.workers|, p requires 0 <= p < |s.workers| => Load(c, s, p))
  }

  ghost predicate Shrinks(c: Config, s: State, t: State)
    requires ValidConfig(c) && Typed(c, s) && Typed(c, t)
  {
    || Sum(AllChances(c, t)) < Sum(AllChances(c, s))
    || (Sum(AllChances(c, t)) == Sum(AllChances(c, s)) && Sum(Loads(c, t)) < Sum(Loads(c, s)))
  }

  lemma UnmarkedFalls(c: Config, s: State, a: Action)
    requires ValidConfig(c) && Typed(c, s) && Enabled(c, s, a)
    ensures Unmarked(Apply(c, s, a).parent) <= Unmarked(s.parent)
  {
    forall v: nat | v in Unmarked(Apply(c, s, a).parent)
      ensures v in Unmarked(s.parent)
    {
      MarksGrow(c, s, a, v);
      assert !Marked(Apply(c, s, a), v) && !Marked(s, v);
    }
  }

  lemma ChancesShrink(c: Config, s: State, a: Action, p: nat)
    requires ValidConfig(c) && Typed(c, s) && Enabled(c, s, a) && Typed(c, Apply(c, s, a)) && p < |s.workers|
    ensures Chances(c, Apply(c, s, a), p) <= Chances(c, s, p)
  {
    UnmarkedFalls(c, s, a);
  }

  /** An activation uses up a chance: the vertex is marked and no longer the worker's to push. */
  lemma ActivationSpends(c: Config, s: State, p: nat)
    requires ValidConfig(c) && Typed(c, s) && Enabled(c, s, Activate(p)) && Typed(c, Apply(c, s, Activate(p)))
    requires KnownOnly(c, s, s.workers[p])
    ensures Target(c, s.workers[p]) in Chances(c, s, p)
    ensures Target(c, s.workers[p]) !in Chances(c, Apply(c, s, Activate(p)), p)
  {
  }

  /** No step gives any worker a new chance. */
  lemma ChancesFall(c: Config, s: State, a: Action, p: nat)
    requires ValidConfig(c) && Typed(c, s) && Enabled(c, s, a) && Typed(c, Apply(c, s, a)) && AllKnown(c, s)
    requires p < |s.workers|
    ensures |Chances(c, Apply(c, s, a), p)| <= |Chances(c, s, p)|
    ensures a == Activate(p) ==> |Chances(c, Apply(c, s, a), p)| < |Chances(c, s, p)|
  {
    ChancesShrink(c, s, a, p);
    SubsetSize(Chances(c, Apply(c, s, a), p), Chances(c, s, p));
    if a == Activate(p) {
      ActivationSpends(c, s, p);
      SubsetSize(Chances(c, Apply(c, s, a), p), Chances(c, s, p) - {Target(c, s.workers[p])});
    }
  }

  /** Every step but an activation shortens the acting worker's load. */
  lemma LoadFalls(c: Config, s: State, a: Action)
    requires ValidConfig(c) && Typed(c, s) && Enabled(c, s, a) && Typed(c, Apply(c, s, a)) && !a.Activate?
    ensures Load(c, Apply(c, s, a), a.p) < Load(c, s, a.p)
  {
    if a.Pop? { PopCost(c.g, s.workers[a.p].queue); }
  }

  lemma OwnLoad(c: Config, s: State, a: Action)
    requires ValidConfig(c) && Typed(c, s) && Enabled(c, s, a) && Typed(c, Apply(c, s, a))
    ensures Loads(c, Apply(c, s, a)) == Loads(c, s)[a.p := Load(c, Apply(c, s, a), a.p)]
  {
  }

  lemma StepShrinks(c: Config, s: State, a: Action)
    requires ValidConfig(c) && Typed(c, s) && Enabled(c, s, a) && AllKnown(c, s)
    ensures Typed(c, Apply(c, s, a)) && Shrinks(c, s, Apply(c, s, a))
  {
    StepTyped(c, s, a);
    var t := Apply(c, s, a);
    forall p: nat | p < |s.workers|
      ensures AllChances(c, t)[p] <= AllChances(c, s)[p]
      ensures a == Activate(p) ==> AllChances(c, t)[p] < AllChances(c, s)[p]
    {
      ChancesFall(c, s, a, p);
    }
    SumFalls(AllChances(c, s), AllChances(c, t));
    if !a.Activate? {
      LoadFalls(c, s, a);
      OwnLoad(c, s, a);
      SumUpdate(Loads(c, s), a.p, Load(c, t, a.p));
    }
  }

  // ---- The coordinator's loop ----

  /** Until the round is over some worker can move. */
  method AnyEnabled(c: Config, s: State) returns (a: Action)
    requires ValidConfig(c) && Typed(c, s) && s.active != {} && !RoundOver(s)
    ensures Enabled(c, s, a)
  {
    for p: int := 0 to |s.workers|
      invariant forall q :: 0 <= q < p ==> s.workers[q].pc.Done?
    {
      match s.workers[p].pc
      case Waiting => return Dispatch(p);
      case Head => if s.workers[p].queue != [] { return Pop(p); } else { return Finish(p); }
      case Scan => return Check(p);
      case Claim => return Store(p);
      case Push => return Activate(p);
      case Done =>
    }
    assert false;
  }

  method DispatchRound(c: Config, pick: (nat, State) -> Action, s0: State) returns (s: State)
    requires ValidConfig(c) && Inv(c, s0) && s0.active != {}
    ensures Inv(c, s) && AtBarrier(s) && s.round == s0.round + 1
  {
    s := s0;
    var steps: nat := 0;
    while !RoundOver(s)
      invariant Inv(c, s) && s.active != {} && s.round == s0.round
      decreases Sum(AllChances(c, s)), Sum(Loads(c, s))
    {
      var a := pick(steps, s);
      if !Enabled(c, s, a) { a := AnyEnabled(c, s); }
      StepInv(c, s, a);
      StepShrinks(c, s, a);
      s := Apply(c, s, a);
      steps := steps + 1;
    }
    EndRoundInv(c, s);
    s := EndRound(c, s);
  }

  /** The query, for every graph, source, partitioning and scheduler: it ends, within `n` rounds, in a search tree. */
  method Query(g: Graph, parts: Parts, source: nat, pick: (nat, State) -> Action) returns (parent: seq<nat>, rounds: nat)
    requires WellFormed(g) && Covers(parts, g.n) && g.n <= 1_000_000_000
    ensures SearchTree(g, source, parent)
    ensures rounds <= g.n
  {
    var c := Config(g, parts, source);
    InitialInv(c);
    var s := Initial(c);
    while s.active != {}
      invariant Inv(c, s) && AtBarrier(s)
      decreases c.g.n - s.round
    {
      s := DispatchRound(c, pick, s);
    }
    ExitIsTree(c, s);
    parent, rounds := s.parent, s.round;
  }
}
