/** The pull-mode query: partitions cut into blocks, the trigger-all rounds under an arbitrary scheduler. */
module PullCcQuery {
  import opened Graphs
  import opened Partitions
  import opened Sums
  import opened VertexArrays
  import opened PullCc
  import opened PullCcRounds
  import opened PullCcRuns

  // ---- Blocks ----

  const CALC_BLOCK: nat := 65536

  ghost predicate Sent(parts: Parts, q: nat, p: nat, done: nat, v: nat)
    requires p < |parts.start|
  {
    Owns(parts, q, v) && (q < p || (q == p && v < parts.start[p] + done))
  }

  /** The blocks cover, each exactly once, the vertices of the partitions before `p` and the first `done` of
      partition `p`. */
  ghost predicate Sliced(blocks: Parts, part: seq<nat>, parts: Parts, p: nat, done: nat)
    requires p < |parts.start|
  {
    && |blocks.start| == |blocks.size| == |part|
    && (forall b :: 0 <= b < |part| ==> part[b] <= p)
    && (forall b: nat, v: nat :: Owns(blocks, b, v) ==> Sent(parts, part[b], p, done, v))
    && (forall q: nat, v: nat :: Sent(parts, q, p, done, v) ==> Owned(blocks, v))
    && (forall b: nat, b': nat, v: nat :: Owns(blocks, b, v) && Owns(blocks, b', v) ==> b == b')
  }

  function Extended(blocks: Parts, start: nat, size: nat): Parts {
    Parts(blocks.start + [start], blocks.size + [size])
  }

  lemma OwnsExtended(blocks: Parts, start: nat, size: nat, b: nat, v: nat)
    requires |blocks.start| == |blocks.size|
    ensures Owns(Extended(blocks, start, size), b, v) <==>
      Owns(blocks, b, v) || (b == |blocks.start| && start <= v < start + size)
  {
  }

  lemma NewSliceIsApart(blocks: Parts, part: seq<nat>, parts: Parts, n: nat, p: nat, done: nat, count: nat, b: nat, v: nat)
    requires Covers(parts, n) && p < |parts.start| && Sliced(blocks, part, parts, p, done)
    requires done + count <= parts.size[p] && Owns(blocks, b, v)
    ensures !(parts.start[p] + done <= v < parts.start[p] + done + count)
  {
    assert Sent(parts, part[b], p, done, v);
    if parts.start[p] + done <= v < parts.start[p] + done + count {
      assert Owns(parts, p, v);
    }
  }

  lemma AddSlice(blocks: Parts, part: seq<nat>, parts: Parts, n: nat, p: nat, done: nat, count: nat)
    requires Covers(parts, n) && p < |parts.start| && Sliced(blocks, part, parts, p, done)
    requires done + count <= parts.size[p]
    ensures Sliced(Extended(blocks, parts.start[p] + done, count), part + [p], parts, p, done + count)
  {
    var start := parts.start[p] + done;
    var longer := Extended(blocks, start, count);
    forall b: nat, v: nat
      ensures Owns(longer, b, v) <==> Owns(blocks, b, v) || (b == |blocks.start| && start <= v < start + count)
    {
      OwnsExtended(blocks, start, count, b, v);
    }
    var far := done + count;
    forall q: nat, v: nat | Sent(parts, q, p, far, v)
      ensures Owned(longer, v)
    {
      if Sent(parts, q, p, done, v) {
        assert Owned(blocks, v);
        var b: nat :| Owns(blocks, b, v);
        assert Owns(longer, b, v);
      } else {
        assert Owns(longer, |blocks.start|, v);
      }
    }
    forall b: nat, b': nat, v: nat | Owns(longer, b, v) && Owns(longer, b', v)
      ensures b == b'
    {
      if Owns(blocks, b, v) { NewSliceIsApart(blocks, part, parts, n, p, done, count, b, v); }
      if Owns(blocks, b', v) { NewSliceIsApart(blocks, part, parts, n, p, done, count, b', v); }
    }
  }

  lemma NextPartition(blocks: Parts, part: seq<nat>, parts: Parts, p: nat)
    requires |parts.start| == |parts.size| && p + 1 < |parts.start| && Sliced(blocks, part, parts, p, parts.size[p])
    ensures Sliced(blocks, part, parts, p + 1, 0)
  {
    forall b: nat, v: nat | Owns(blocks, b, v)
      ensures Sent(parts, part[b], p + 1, 0, v)
    {
      assert Sent(parts, part[b], p, parts.size[p], v);
    }
    var next := p + 1;
    forall q: nat, v: nat | Sent(parts, q, next, 0, v)
      ensures Owned(blocks, v)
    {
      assert Sent(parts, q, p, parts.size[p], v);
    }
  }

  /** Block `b` starts a multiple of 65536 into its partition and is no longer than that. */
  ghost predicate RegularBlock(blocks: Parts, part: seq<nat>, parts: Parts, b: nat)
    requires b < |part| == |blocks.start| == |blocks.size|
  {
    && part[b] < |parts.start| && blocks.size[b] <= 65536
    && blocks.start[b] >= parts.start[part[b]] && (blocks.start[b] - parts.start[part[b]]) % 65536 == 0
  }

  ghost predicate Regular(blocks: Parts, part: seq<nat>, parts: Parts)
  {
    && |part| == |blocks.start| == |blocks.size|
    && forall b: nat :: b < |part| ==> RegularBlock(blocks, part, parts, b)
  }

  lemma MoreRegular(blocks: Parts, part: seq<nat>, parts: Parts, p: nat, i: nat, count: nat)
    requires Regular(blocks, part, parts) && p < |parts.start| && i % CALC_BLOCK == 0 && count <= CALC_BLOCK
    ensures Regular(Extended(blocks, parts.start[p] + i, count), part + [p], parts)
  {
    var longer, more := Extended(blocks, parts.start[p] + i, count), part + [p];
    forall b: nat | b < |more|
      ensures RegularBlock(longer, more, parts, b)
    {
      if b < |part| { assert RegularBlock(blocks, part, parts, b); }
    }
  }

  /** `Calc`'s loop over its active list, for one partition. */
  method CutPartition(blocks0: Parts, part0: seq<nat>, parts: Parts, ghost n: nat, p: nat)
    returns (blocks: Parts, part: seq<nat>)
    requires Covers(parts, n) && p < |parts.start| && Sliced(blocks0, part0, parts, p, 0) && Regular(blocks0, part0, parts)
    ensures Sliced(blocks, part, parts, p, parts.size[p]) && Regular(blocks, part, parts)
  {
    blocks, part := blocks0, part0;
    var i: nat := 0;
    while i < parts.size[p]
      invariant i % CALC_BLOCK == 0 && Regular(blocks, part, parts)
      invariant i <= parts.size[p] ==> Sliced(blocks, part, parts, p, i)
      invariant i > parts.size[p] ==> Sliced(blocks, part, parts, p, parts.size[p])
      decreases parts.size[p] - i
    {
      var count := if i + CALC_BLOCK < parts.size[p] then CALC_BLOCK else parts.size[p] - i;
      AddSlice(blocks, part, parts, n, p, i, count);
      MoreRegular(blocks, part, parts, p, i, count);
      blocks, part := Extended(blocks, parts.start[p] + i, count), part + [p];
      i := i + CALC_BLOCK;
    }
  }

  lemma SlicedCovers(blocks: Parts, part: seq<nat>, parts: Parts, n: nat)
    requires Covers(parts, n) && |blocks.start| == |blocks.size| == |part|
    requires |parts.start| == 0 ==> part == []
    requires |parts.start| > 0 ==> Sliced(blocks, part, parts, |parts.start| - 1, parts.size[|parts.start| - 1])
    ensures Covers(blocks, n)
    ensures forall b: nat, v: nat :: Owns(blocks, b, v) ==> Owns(parts, part[b], v)
  {
    forall v: nat | v < n
      ensures Owned(blocks, v)
    {
      assert Owned(parts, v);
      var q: nat :| Owns(parts, q, v);
      var last: nat := |parts.start| - 1;
      assert Sent(parts, q, last, parts.size[last], v);
    }
  }

  /** All partitions: every vertex is in exactly one block, and the block is its owner's. */
  method CutBlocks(parts: Parts, ghost n: nat) returns (blocks: Parts, part: seq<nat>)
    requires Covers(parts, n)
    ensures Covers(blocks, n) && |part| == |blocks.start| && Regular(blocks, part, parts)
    ensures forall b: nat, v: nat :: Owns(blocks, b, v) ==> Owns(parts, part[b], v)
    ensures forall b :: 0 <= b < |part| ==> part[b] < |parts.start|
  {
    blocks, part := Parts([], []), [];
    for p: nat := 0 to |parts.start|
      invariant |blocks.start| == |blocks.size| == |part| && Regular(blocks, part, parts)
      invariant p < |parts.start| ==> Sliced(blocks, part, parts, p, 0)
      invariant p == |parts.start| > 0 ==> Sliced(blocks, part, parts, p - 1, parts.size[p - 1])
      invariant p == 0 ==> part == []
      invariant forall b :: 0 <= b < |part| ==> part[b] < |parts.start|
    {
      blocks, part := CutPartition(blocks, part, parts, n, p);
      if p + 1 < |parts.start| { NextPartition(blocks, part, parts, p); }
    }
    SlicedCovers(blocks, part, parts, n);
  }

  // ---- The measure ----

  /** Steps left for the vertices `from .. to`. */
  ghost function Rest(c: Config, from: nat, to: nat): nat
    decreases to - from
  {
    if from >= to then 0
    else (if from < |c.inn| then |c.inn[from]| else 0) + 5 + Rest(c, from + 1, to)
  }

  ghost function Left(c: Config, s: State, b: nat): nat
    requires ValidConfig(c) && Typed(c, s) && b < |c.rep|
  {
    var w := s.workers[b];
    assert ValidWorker(c, b, w);
    match w.pc
    case Head => 1 + Rest(c, w.u, Limit(c, b))
    case Read => |c.inn[w.u]| - w.i + 5 + Rest(c, w.u + 1, Limit(c, b))
    case Write => 4 + Rest(c, w.u + 1, Limit(c, b))
    case Load => 3 + Rest(c, w.u + 1, Limit(c, b))
    case Merge => 2 + Rest(c, w.u + 1, Limit(c, b))
    case Done => 0
  }

  ghost function AllLeft(c: Config, s: State): (d: seq<nat>)
    requires ValidConfig(c) && Typed(c, s)
    ensures |d| == |c.rep|
  {
    seq(|c.rep|, b requires 0 <= b < |c.rep| => Left(c, s, b))
  }

  ghost function Traffic(s: State): (d: seq<nat>)
    ensures |d| == |s.net|
  {
    seq(|s.net|, r requires 0 <= r < |s.net| => |s.net[r]|)
  }

  ghost predicate Shrinks(c: Config, s: State, t: State)
    requires ValidConfig(c) && Typed(c, s) && Typed(c, t)
  {
    || Sum(AllLeft(c, t)) < Sum(AllLeft(c, s))
    || (Sum(AllLeft(c, t)) == Sum(AllLeft(c, s)) && Sum(Traffic(t)) < Sum(Traffic(s)))
  }

  lemma LeftFalls(c: Config, s: State, a: Action)
    requires ValidConfig(c) && Typed(c, s) && Enabled(c, s, a) && Typed(c, Apply(c, s, a)) && !a.Deliver?
    ensures Left(c, Apply(c, s, a), a.b) < Left(c, s, a.b)
  {
  }

  lemma OwnLeft(c: Config, s: State, a: Action)
    requires ValidConfig(c) && Typed(c, s) && Enabled(c, s, a) && Typed(c, Apply(c, s, a)) && !a.Deliver?
    ensures AllLeft(c, Apply(c, s, a)) == AllLeft(c, s)[a.b := Left(c, Apply(c, s, a), a.b)]
  {
    forall b: nat | b < |c.rep| && b != a.b
      ensures Left(c, Apply(c, s, a), b) == Left(c, s, b)
    {
      assert Apply(c, s, a).workers[b] == s.workers[b];
    }
  }

  lemma DeliverShrinks(c: Config, s: State, a: Action)
    requires ValidConfig(c) && Typed(c, s) && Enabled(c, s, a) && Typed(c, Apply(c, s, a)) && a.Deliver?
    ensures Shrinks(c, s, Apply(c, s, a))
  {
    var t := Apply(c, s, a);
    assert AllLeft(c, t) == AllLeft(c, s);
    assert |t.net[a.r]| == |s.net[a.r]| - 1;
    assert Traffic(t) == Traffic(s)[a.r := |t.net[a.r]|];
    SumUpdate(Traffic(s), a.r, |t.net[a.r]|);
  }

  lemma StepShrinks(c: Config, s: State, a: Action)
    requires ValidConfig(c) && Typed(c, s) && Enabled(c, s, a) && Typed(c, Apply(c, s, a))
    ensures Shrinks(c, s, Apply(c, s, a))
  {
    if a.Deliver? {
      DeliverShrinks(c, s, a);
    } else {
      LeftFalls(c, s, a);
      OwnLeft(c, s, a);
      SumUpdate(AllLeft(c, s), a.b, Left(c, Apply(c, s, a), a.b));
    }
  }

  // ---- The query ----

  method AnyEnabled(c: Config, s: State) returns (a: Action)
    requires ValidConfig(c) && Typed(c, s) && s.active && !RoundOver(s)
    ensures Enabled(c, s, a)
  {
    for b: int := 0 to |c.rep|
      invariant forall q :: 0 <= q < b ==> s.workers[q].pc.Done?
    {
      assert ValidWorker(c, b, s.workers[b]);
      match s.workers[b].pc
      case Head => if s.workers[b].u < Limit(c, b) { return Take(b); } else { return Send(b); }
      case Read => return ReadNext(b);
      case Write => return Store(b);
      case Load => return LoadWord(b);
      case Merge => return StoreWord(b);
      case Done =>
    }
    for r: int := 0 to c.replicas
      invariant forall q :: 0 <= q < r ==> s.net[q] == multiset{}
    {
      if s.net[r] != multiset{} {
        var m :| m in s.net[r];
        return Deliver(r, m);
      }
    }
    assert false;
  }

  method DispatchRound(c: Config, pick: (nat, State) -> Action, s0: State) returns (s: State)
    requires ValidConfig(c) && Inv(c, s0) && s0.active
    ensures Inv(c, s) && AtBarrier(c, s) && s.round == s0.round + 1
  {
    s := s0;
    var steps: nat := 0;
    while !RoundOver(s)
      invariant Inv(c, s) && s.active && s.round == s0.round
      decreases Sum(AllLeft(c, s)), Sum(Traffic(s))
    {
      var a := pick(steps, s);
      if !Enabled(c, s, a) { a := AnyEnabled(c, s); }
      StepInv(c, s, a);
      StepShrinks(c, s, a);
      s := Apply(c, s, a);
      steps := steps + 1;
    }
    EndRoundInv(c, s);
    s := EndRound(c, s);
  }

  /** The query, for every unweighted graph, partitioning, placement and scheduler: within `n` rounds every
      replica holds the smallest id that reaches each vertex. */
  method Query(g: Graph, inn: seq<seq<nat>>, parts: Parts, rep: seq<nat>, replicas: nat, pick: (nat, State) -> Action)
    returns (labels: seq<seq<nat>>, rounds: nat)
    requires WellFormed(g) && Unweighted(g) && InLists(g, inn) && g.n <= MAX_NODES
    requires Covers(parts, g.n) && |rep| == |parts.start| && forall p :: 0 <= p < |rep| ==> rep[p] < replicas
    ensures |labels| == replicas && forall r :: 0 <= r < replicas ==> |labels[r]| == g.n
    ensures forall r: nat, v: nat :: r < replicas && v < g.n ==> SmallestReaching(g, v, labels[r][v])
    ensures rounds <= g.n
  {
    var blocks, part := CutBlocks(parts, g.n);
    var c := Config(g, inn, blocks, part, |rep|, seq(|part|, b requires 0 <= b < |part| => rep[part[b]]), replicas);
    InitialInv(c);
    var s := Initial(c);
    while s.active
      invariant Inv(c, s) && AtBarrier(c, s)
      decreases c.g.n - s.round
    {
      s := DispatchRound(c, pick, s);
    }
    ExitIsSmallest(c, s);
    labels, rounds := s.vals, s.round;
  }
}
