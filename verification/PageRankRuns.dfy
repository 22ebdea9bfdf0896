/** PageRank over whole runs: the double buffer keeps every read away from the round's writes, and the buffer
    being read holds the iterate of the completed rounds. */
module PageRankRuns {
  import opened PageRank
  import opened RankLaws
  import opened Sums

  /** A block that is not through sees the round's tag. */
  lemma UnfinishedSeesNew(c: Config, s: State, b: nat)
    requires ValidConfig(c) && Typed(c, s) && PairsOk(c, s) && CountedDone(c, s)
    requires b < |c.lists| && !BlockDone(c, s, b)
    ensures TagOf(c, s, b) == NewTag(s.round)
  {
    var p := c.part[b];
    assert !AllDone(c, s, p);
    assert HasPartner(c, p);
    var q: nat :| Pair(c, p, q);
    assert PairOk(s.phases[p], s.phases[q], s.finished[c.home[p]], s.tags[c.home[p]], s.round);
  }

  lemma StepCounted(c: Config, s: State, a: Action)
    requires ValidConfig(c) && Typed(c, s) && Enabled(c, s, a) && CountedDone(c, s)
    ensures Typed(c, Apply(c, s, a)) && CountedDone(c, Apply(c, s, a))
  {
    StepTyped(c, s, a);
    var t := Apply(c, s, a);
    forall p: nat | p < |c.home| && !t.phases[p].Running?
      ensures AllDone(c, t, p)
    {
      assert AllDone(c, s, p);
      forall b: nat | b < |c.part| && c.part[b] == p
        ensures BlockDone(c, t, b)
      {
        assert BlockDone(c, s, b);
      }
    }
  }

  // ---- Buffer contents ----

  ghost predicate OldHolds(c: Config, s: State)
    requires ValidConfig(c) && Typed(c, s)
  {
    forall u: nat :: Active(c, u) ==> s.buf[OldTag(s.round)][u] == Share(c, s.round, u)
  }

  ghost predicate BlockOk(c: Config, s: State, b: nat)
    requires ValidConfig(c) && Typed(c, s) && b < |c.lists|
  {
    var w := s.blocks[b];
    && (forall j: nat :: j < w.at ==> s.buf[NewTag(s.round)][Vertex(c, b, j)] == Share(c, s.round + 1, Vertex(c, b, j)))
    && (w.adding ==> w.acc == Gathered(c, s.round, Vertex(c, b, w.at), w.i))
  }

  ghost predicate NewHolds(c: Config, s: State)
    requires ValidConfig(c) && Typed(c, s)
  {
    && (forall b: nat :: b < |c.lists| ==> BlockOk(c, s, b))
    && (forall e :: e in s.written ==> e.0 == NewTag(s.round))
  }

  ghost predicate Inv(c: Config, s: State)
    requires ValidConfig(c)
  {
    && Typed(c, s) && PairsOk(c, s) && CountedDone(c, s)
    && OldHolds(c, s) && NewHolds(c, s)
  }

  /** No step reads an entry written in the same round; what it reads is the last iterate. */
  lemma ReadsAreOld(c: Config, s: State, b: nat)
    requires ValidConfig(c) && Inv(c, s) && Enabled(c, s, Add(b))
    ensures (Other(TagOf(c, s, b)), Source(c, s, b)) !in s.written
    ensures s.buf[Other(TagOf(c, s, b))][Source(c, s, b)] == Share(c, s.round, Source(c, s, b))
  {
    UnfinishedSeesNew(c, s, b);
  }

  lemma AddOk(c: Config, s: State, b: nat)
    requires ValidConfig(c) && Inv(c, s) && Enabled(c, s, Add(b)) && Typed(c, Apply(c, s, Add(b)))
    ensures BlockOk(c, Apply(c, s, Add(b)), b)
  {
    ReadsAreOld(c, s, b);
    assert BlockOk(c, s, b);
  }

  /** The stored value is the next iterate's share. */
  lemma StoredShare(c: Config, s: State, b: nat)
    requires ValidConfig(c) && Inv(c, s) && Enabled(c, s, Store(b))
    ensures TagOf(c, s, b) == NewTag(s.round)
    ensures NewVal(c, s, b) == Share(c, s.round + 1, Vertex(c, b, s.blocks[b].at))
  {
    UnfinishedSeesNew(c, s, b);
    assert BlockOk(c, s, b);
  }

  lemma StoreOk(c: Config, s: State, a: nat, b: nat)
    requires ValidConfig(c) && Inv(c, s) && Enabled(c, s, Store(a)) && Typed(c, Apply(c, s, Store(a))) && b < |c.lists|
    ensures BlockOk(c, Apply(c, s, Store(a)), b)
  {
    StoredShare(c, s, a);
    assert BlockOk(c, s, b);
  }

  lemma StepNew(c: Config, s: State, a: Action)
    requires ValidConfig(c) && Inv(c, s) && Enabled(c, s, a) && Typed(c, Apply(c, s, a))
    ensures NewHolds(c, Apply(c, s, a))
  {
    var t := Apply(c, s, a);
    if a.Store? { StoredShare(c, s, a.b); }
    forall b: nat | b < |c.lists|
      ensures BlockOk(c, t, b)
    {
      assert BlockOk(c, s, b);
      if a.Store? {
        StoreOk(c, s, a.b, b);
      } else if a == Add(b) {
        AddOk(c, s, b);
      }
    }
  }

  lemma StepOld(c: Config, s: State, a: Action)
    requires ValidConfig(c) && Inv(c, s) && Enabled(c, s, a) && Typed(c, Apply(c, s, a))
    ensures OldHolds(c, Apply(c, s, a))
  {
    if a.Store? { StoredShare(c, s, a.b); }
  }

  lemma StepInv(c: Config, s: State, a: Action)
    requires ValidConfig(c) && Inv(c, s) && Enabled(c, s, a)
    ensures Inv(c, Apply(c, s, a))
  {
    StepPairs(c, s, a);
    StepCounted(c, s, a);
    StepNew(c, s, a);
    StepOld(c, s, a);
  }

  // ---- Rounds ----

  lemma InitialInv(c: Config)
    requires ValidConfig(c)
    ensures Inv(c, Initial(c))
  {
    forall b: nat | b < |c.lists|
      ensures Initial(c).blocks[b] == START
    {
    }
  }

  /** Between rounds all containers agree on the tag. */
  ghost predicate TagsAgree(c: Config, s: State)
    requires ValidConfig(c) && Typed(c, s)
  {
    forall k :: 0 <= k < c.containers ==> s.tags[k] == NewTag(s.round)
  }

  lemma RoundStored(c: Config, s: State, u: nat)
    requires ValidConfig(c) && Inv(c, s) && RoundOver(s) && Active(c, u)
    ensures s.buf[NewTag(s.round)][u] == Share(c, s.round + 1, u)
  {
    var b: nat :| InBlock(c, b, u);
    var p := c.part[b];
    assert !s.phases[p].Running? && AllDone(c, s, p) && BlockDone(c, s, b);
    var j: nat :| j < |c.lists[b]| && c.lists[b][j] == u;
    assert BlockOk(c, s, b) && Vertex(c, b, j) == u;
  }

  lemma RoundFlipped(c: Config, s: State, p: nat, q: nat)
    requires ValidConfig(c) && Inv(c, s) && RoundOver(s) && Pair(c, p, q)
    ensures s.finished[c.home[p]] == 0 && s.tags[c.home[p]] == NewTag(s.round + 1)
  {
    assert PairOk(s.phases[p], s.phases[q], s.finished[c.home[p]], s.tags[c.home[p]], s.round);
  }

  lemma EndRoundInv(c: Config, s: State)
    requires ValidConfig(c) && Inv(c, s) && RoundOver(s)
    ensures Inv(c, EndRound(c, s)) && TagsAgree(c, EndRound(c, s))
  {
    var t := EndRound(c, s);
    assert Typed(c, t);
    forall u: nat | Active(c, u)
      ensures t.buf[OldTag(t.round)][u] == Share(c, t.round, u)
    {
      RoundStored(c, s, u);
    }
    forall p: nat, q: nat | Pair(c, p, q)
      ensures PairOk(t.phases[p], t.phases[q], t.finished[c.home[p]], t.tags[c.home[p]], t.round)
    {
      RoundFlipped(c, s, p, q);
    }
    forall k | 0 <= k < c.containers
      ensures t.tags[k] == NewTag(t.round)
    {
      assert Occupied(c, k);
      var p: nat :| p < |c.home| && c.home[p] == k;
      assert HasPartner(c, p);
      var q: nat :| Pair(c, p, q);
      RoundFlipped(c, s, p, q);
    }
  }

  ghost predicate Next(c: Config, s: State, t: State)
    requires ValidConfig(c) && Typed(c, s)
  {
    || (exists a :: Enabled(c, s, a) && t == Apply(c, s, a))
    || (RoundOver(s) && t == EndRound(c, s))
  }

  ghost predicate Steps(c: Config, s: State, t: State)
    requires ValidConfig(c)
  {
    Typed(c, s) && Next(c, s, t)
  }

  ghost predicate Run(c: Config, tr: seq<State>)
    requires ValidConfig(c)
  {
    && |tr| > 0 && tr[0] == Initial(c)
    && forall i: nat :: i + 1 < |tr| ==> Steps(c, tr[i], tr[i + 1])
  }

  lemma NextInv(c: Config, s: State, t: State)
    requires ValidConfig(c) && Inv(c, s) && Next(c, s, t)
    ensures Inv(c, t)
  {
    if RoundOver(s) && t == EndRound(c, s) {
      EndRoundInv(c, s);
    } else {
      var a :| Enabled(c, s, a) && t == Apply(c, s, a);
      StepInv(c, s, a);
    }
  }

  lemma StepsInv(c: Config, tr: seq<State>, i: nat)
    requires ValidConfig(c) && Run(c, tr) && i + 1 < |tr| && Inv(c, tr[i])
    ensures Inv(c, tr[i + 1])
  {
    assert Steps(c, tr[i], tr[i + 1]);
    NextInv(c, tr[i], tr[i + 1]);
  }

  lemma RunInv(c: Config, tr: seq<State>, i: nat)
    requires ValidConfig(c) && Run(c, tr) && i < |tr|
    ensures Inv(c, tr[i])
  {
    InitialInv(c);
    for j := 0 to i
      invariant Inv(c, tr[j])
    {
      StepsInv(c, tr, j);
    }
  }

  lemma ReadBufferHolds(c: Config, tr: seq<State>, i: nat)
    requires ValidConfig(c) && Run(c, tr) && i < |tr|
    ensures Typed(c, tr[i]) && HoldsShares(c, tr[i].buf[OldTag(tr[i].round)], tr[i].round)
  {
    RunInv(c, tr, i);
  }

  lemma NoReadIsNew(c: Config, tr: seq<State>, i: nat, b: nat)
    requires ValidConfig(c) && Run(c, tr) && i < |tr|
    ensures Typed(c, tr[i])
    ensures Enabled(c, tr[i], Add(b)) ==> (Other(TagOf(c, tr[i], b)), Source(c, tr[i], b)) !in tr[i].written
  {
    RunInv(c, tr, i);
    if Enabled(c, tr[i], Add(b)) { ReadsAreOld(c, tr[i], b); }
  }

  /** In every state of every run the buffer not being written holds, on the vertices with out-edges, the ranks
      after the completed rounds divided by the out-degrees: the damped weight of the walks into the vertex, split
      over its out-edges. And no enabled read touches this round's writes. */
  lemma Correct(c: Config, tr: seq<State>, i: nat)
    requires ValidConfig(c) && Run(c, tr) && i < |tr|
    ensures Typed(c, tr[i])
    ensures forall u: nat :: Active(c, u) ==>
      && tr[i].buf[OldTag(tr[i].round)][u] == Rank(c, tr[i].round, u) / c.deg[u] as real
      && tr[i].buf[OldTag(tr[i].round)][u] == Damped(c, tr[i].round, u) / c.deg[u] as real
    ensures forall b: nat :: Enabled(c, tr[i], Add(b)) ==>
      (Other(TagOf(c, tr[i], b)), Source(c, tr[i], b)) !in tr[i].written
  {
    ReadBufferHolds(c, tr, i);
    SharesLaw(c, tr[i].buf[OldTag(tr[i].round)], tr[i].round);
    forall b: nat | Enabled(c, tr[i], Add(b))
      ensures (Other(TagOf(c, tr[i], b)), Source(c, tr[i], b)) !in tr[i].written
    {
      NoReadIsNew(c, tr, i, b);
    }
  }

  /** At every barrier of every run all containers' tags agree, so the next round reads what this one wrote. */
  lemma BarrierTags(c: Config, tr: seq<State>, i: nat)
    requires ValidConfig(c) && Run(c, tr) && i < |tr| && RoundOver(tr[i])
    ensures Typed(c, EndRound(c, tr[i])) && TagsAgree(c, EndRound(c, tr[i]))
  {
    RunInv(c, tr, i);
    EndRoundInv(c, tr[i]);
  }

  // ---- Why two partitions ----

  /** The counter and tag of one container with any number of partitions, its blocks left out. `flips` and `round`
      record history only. */
  datatype Tally = Tally(phases: seq<Phase>, finished: int, flips: nat, round: nat)

  function AllRunning(n: nat): seq<Phase> { seq(n, _ => Running) }

  /** The next step of partition `p`'s `Calc` after its blocks. */
  function Tick(t: Tally, p: nat): Tally
    requires p < |t.phases| && !t.phases[p].Replied?
  {
    match t.phases[p]
    case Running =>
      t.(finished := t.finished + 1, phases := t.phases[p := if t.finished + 1 == 2 then Flipping else Replied])
    case Flipping => t.(flips := t.flips + 1, phases := t.phases[p := Resetting])
    case Resetting => t.(finished := 0, phases := t.phases[p := Replied])
  }

  predicate AllReplied(t: Tally) {
    forall p :: 0 <= p < |t.phases| ==> t.phases[p].Replied?
  }

  function NextRound(t: Tally): Tally { t.(phases := AllRunning(|t.phases|), round := t.round + 1) }

  ghost predicate TallyNext(t: Tally, t': Tally) {
    || (exists p: nat :: p < |t.phases| && !t.phases[p].Replied? && t' == Tick(t, p))
    || (AllReplied(t) && t' == NextRound(t))
  }

  ghost predicate TallyRun(n: nat, tr: seq<Tally>) {
    && |tr| > 0 && tr[0] == Tally(AllRunning(n), 0, 0, 0)
    && forall i: nat :: i + 1 < |tr| ==> TallyNext(tr[i], tr[i + 1])
  }

  ghost predicate Reachable(n: nat, t: Tally) {
    exists tr :: TallyRun(n, tr) && tr[|tr| - 1] == t
  }

  /** At the end of every round of every run the tag has flipped once in each round. */
  ghost predicate OncePerRound(n: nat) {
    forall t :: Reachable(n, t) && AllReplied(t) ==> t.flips == t.round + 1
  }

  /** The partitions of a container with two of them. */
  ghost predicate TwoOk(t: Tally) {
    && |t.phases| == 2
    && PairOk(t.phases[0], t.phases[1], t.finished, if t.flips == t.round then NewTag(t.round) else OldTag(t.round), t.round)
    && t.round <= t.flips <= t.round + 1
  }

  lemma TwoKept(t: Tally, t': Tally)
    requires TwoOk(t) && TallyNext(t, t')
    ensures TwoOk(t')
  {
    if AllReplied(t) && t' == NextRound(t) {
      assert t.phases[0].Replied? && t.phases[1].Replied?;
    } else {
      var p: nat :| p < |t.phases| && !t.phases[p].Replied? && t' == Tick(t, p);
    }
  }

  lemma TwoFlipOnce()
    ensures OncePerRound(2)
  {
    forall t | Reachable(2, t) && AllReplied(t)
      ensures t.flips == t.round + 1
    {
      var tr :| TallyRun(2, tr) && tr[|tr| - 1] == t;
      for j := 0 to |tr| - 1
        invariant TwoOk(tr[j])
      {
        TwoKept(tr[j], tr[j + 1]);
      }
      assert t.phases[0].Replied? && t.phases[1].Replied?;
    }
  }

  lemma ReachNext(n: nat, t: Tally, t': Tally)
    requires Reachable(n, t) && TallyNext(t, t')
    ensures Reachable(n, t')
  {
    var tr :| TallyRun(n, tr) && tr[|tr| - 1] == t;
    var longer := tr + [t'];
    assert TallyRun(n, longer) && longer[|longer| - 1] == t';
  }

  /** The first `k` partitions have replied, the others are running. */
  function FirstReplied(n: nat, k: nat): seq<Phase> {
    seq(n, p => if p < k then Replied else Running)
  }

  /** Partition `k` runs through while nobody else moves: the counter goes from 0 to 1, or from 1 by a flip to 0. */
  lemma OneThrough(n: nat, k: nat, finished: nat, flips: nat, round: nat)
    requires k < n && finished <= 1 && Reachable(n, Tally(FirstReplied(n, k), finished, flips, round))
    ensures Reachable(n, Tally(FirstReplied(n, k + 1), (finished + 1) % 2, flips + (finished + 1) / 2, round))
  {
    var t0 := Tally(FirstReplied(n, k), finished, flips, round);
    var t1 := Tick(t0, k);
    ReachNext(n, t0, t1);
    var after := FirstReplied(n, k + 1);
    if finished == 0 {
      assert t1.phases == after;
    } else {
      var t2 := Tick(t1, k);
      ReachNext(n, t1, t2);
      var t3 := Tick(t2, k);
      ReachNext(n, t2, t3);
      assert t3.phases == after;
    }
  }

  /** One after the other, the partitions flip the tag with every second count. */
  lemma {:induction false} Sequentially(n: nat, k: nat, finished: nat, flips: nat, round: nat)
    requires k <= n && finished <= 1 && Reachable(n, Tally(FirstReplied(n, 0), finished, flips, round))
    ensures Reachable(n, Tally(FirstReplied(n, k), (finished + k) % 2, flips + (finished + k) / 2, round))
  {
    if k > 0 {
      Sequentially(n, k - 1, finished, flips, round);
      var f := (finished + (k - 1)) % 2;
      OneThrough(n, k - 1, f, flips + (finished + (k - 1)) / 2, round);
      assert (f + 1) % 2 == (finished + k) % 2;
      assert (finished + (k - 1)) / 2 + (f + 1) / 2 == (finished + k) / 2;
    }
  }

  /** Two rounds of `n` partitions, one after the other, flip the tag `n` times. */
  lemma TwoRounds(n: nat)
    ensures Reachable(n, Tally(FirstReplied(n, n), 0, n, 1))
  {
    var start := Tally(AllRunning(n), 0, 0, 0);
    assert TallyRun(n, [start]) && [start][|[start]| - 1] == start;
    assert FirstReplied(n, 0) == AllRunning(n);
    Sequentially(n, n, 0, 0, 0);
    var t := Tally(FirstReplied(n, n), n % 2, n / 2, 0);
    ReachNext(n, t, NextRound(t));
    assert NextRound(t).phases == FirstReplied(n, 0);
    Sequentially(n, n, n % 2, n / 2, 1);
    assert (n % 2 + n) % 2 == 0 && n / 2 + (n % 2 + n) / 2 == n;
  }

  /** In every interleaving the tag flips exactly once in every round, exactly when the container has two partitions. */
  lemma FlipsOncePerRound(n: nat)
    ensures OncePerRound(n) <==> n == 2
  {
    if n == 2 {
      TwoFlipOnce();
    } else {
      TwoRounds(n);
      assert AllReplied(Tally(FirstReplied(n, n), 0, n, 1));
    }
  }

  // ---- The query ----

  ghost function ListLeft(c: Config, b: nat, at: nat): (k: nat)
    requires ValidConfig(c) && b < |c.lists| && at <= |c.lists[b]|
    ensures at < |c.lists[b]| ==> k >= |c.inn[Vertex(c, b, at)]| + 2
    decreases |c.lists[b]| - at
  {
    if at == |c.lists[b]| then 0 else |c.inn[Vertex(c, b, at)]| + 2 + ListLeft(c, b, at + 1)
  }

  /** What is left of a block, a partition. */
  ghost function BlockLeft(c: Config, b: nat, w: Block): nat
    requires ValidConfig(c) && b < |c.lists| && BlockTyped(c, b, w)
  {
    ListLeft(c, b, w.at) - (if w.adding then 1 + w.i else 0)
  }

  ghost function PhaseLeft(p: Phase): nat {
    match p case Running => 3 case Flipping => 2 case Resetting => 1 case Replied => 0
  }

  ghost function Left(c: Config, s: State): (d: seq<nat>)
    requires ValidConfig(c) && Typed(c, s)
    ensures |d| == |c.lists|
  {
    seq(|c.lists|, b requires 0 <= b < |c.lists| => BlockLeft(c, b, s.blocks[b]))
  }

  ghost function Phases(s: State): (d: seq<nat>)
    ensures |d| == |s.phases|
  {
    seq(|s.phases|, p requires 0 <= p < |s.phases| => PhaseLeft(s.phases[p]))
  }

  lemma BlockShrinks(c: Config, s: State, a: Action)
    requires ValidConfig(c) && Typed(c, s) && Enabled(c, s, a) && Typed(c, Apply(c, s, a))
    requires a.Take? || a.Add? || a.Store?
    ensures BlockLeft(c, a.b, Apply(c, s, a).blocks[a.b]) < BlockLeft(c, a.b, s.blocks[a.b])
    ensures Left(c, Apply(c, s, a)) == Left(c, s)[a.b := BlockLeft(c, a.b, Apply(c, s, a).blocks[a.b])]
  {
  }

  lemma StepShrinks(c: Config, s: State, a: Action)
    requires ValidConfig(c) && Typed(c, s) && Enabled(c, s, a) && Typed(c, Apply(c, s, a))
    ensures Sum(Left(c, Apply(c, s, a))) + Sum(Phases(Apply(c, s, a))) < Sum(Left(c, s)) + Sum(Phases(s))
  {
    var t := Apply(c, s, a);
    if a.Take? || a.Add? || a.Store? {
      assert Phases(t) == Phases(s);
      BlockShrinks(c, s, a);
      SumUpdate(Left(c, s), a.b, BlockLeft(c, a.b, t.blocks[a.b]));
    } else {
      assert Left(c, t) == Left(c, s);
      assert Phases(t) == Phases(s)[a.p := PhaseLeft(t.phases[a.p])];
      SumUpdate(Phases(s), a.p, PhaseLeft(t.phases[a.p]));
    }
  }

  method AnyEnabled(c: Config, s: State) returns (a: Action)
    requires ValidConfig(c) && Typed(c, s) && !RoundOver(s)
    ensures Enabled(c, s, a)
  {
    for b: nat := 0 to |c.lists|
      invariant forall j: nat :: j < b ==> BlockDone(c, s, j)
    {
      assert BlockTyped(c, b, s.blocks[b]);
      if s.blocks[b].adding {
        if s.blocks[b].i < |c.inn[Vertex(c, b, s.blocks[b].at)]| { return Add(b); } else { return Store(b); }
      } else if !BlockDone(c, s, b) {
        return Take(b);
      }
    }
    for p: nat := 0 to |c.home|
      invariant forall j: nat :: j < p ==> s.phases[j].Replied?
    {
      match s.phases[p]
      case Running => return Count(p);
      case Flipping => return Flip(p);
      case Resetting => return Reset(p);
      case Replied =>
    }
    assert false;
  }

  method DispatchRound(c: Config, pick: (nat, State) -> Action, s0: State) returns (s: State)
    requires ValidConfig(c) && Inv(c, s0)
    ensures Inv(c, s) && TagsAgree(c, s) && s.round == s0.round + 1
  {
    s := s0;
    var steps: nat := 0;
    while !RoundOver(s)
      invariant Inv(c, s) && s.round == s0.round
      decreases Sum(Left(c, s)) + Sum(Phases(s))
    {
      var a := pick(steps, s);
      if !Enabled(c, s, a) { a := AnyEnabled(c, s); }
      StepInv(c, s, a);
      StepShrinks(c, s, a);
      s := Apply(c, s, a);
      steps := steps + 1;
    }
    EndRoundInv(c, s);
    s := EndRound(c, s);
  }

  predicate SomeActive(c: Config) {
    exists u: nat | u < c.n :: Active(c, u)
  }

  /** The coordinator starts another round after `done` of them: with `no_change` the active set never empties. */
  predicate Again(c: Config, roundLimit: int, done: nat) {
    SomeActive(c) && !(roundLimit > 0 && done + 1 > roundLimit)
  }

  /** The loop ends exactly when there is a positive round limit, or nothing to do; a limit of 0 means none. */
  lemma LoopEnds(c: Config, roundLimit: int)
    ensures (exists done: nat :: !Again(c, roundLimit, done)) <==> (roundLimit > 0 || !SomeActive(c))
  {
    if roundLimit > 0 { assert !Again(c, roundLimit, roundLimit); }
    if !SomeActive(c) { assert !Again(c, roundLimit, 0); }
  }

  /** The rounds, where their loop ends. */
  method Iterate(c: Config, roundLimit: int, pick: (nat, State) -> Action) returns (shares: seq<real>, rounds: nat)
    requires ValidConfig(c) && (roundLimit > 0 || !SomeActive(c))
    ensures rounds == if SomeActive(c) then roundLimit else 0
    ensures HoldsShares(c, shares, rounds)
  {
    InitialInv(c);
    var s := Initial(c);
    rounds := 0;
    while Again(c, roundLimit, rounds)
      invariant Inv(c, s) && s.round == rounds && (rounds > 0 ==> SomeActive(c) && rounds <= roundLimit)
      decreases roundLimit - rounds
    {
      s := DispatchRound(c, pick, s);
      rounds := rounds + 1;
    }
    shares := s.buf[OldTag(s.round)];
  }

  /** The query: it runs as many rounds as the limit says, if anything is active. The returned buffer
      holds the damped weight of the walks into each vertex, split over its out-edges; in all as much as there are
      vertices if none lacks out-edges, and what the next round would spread if some do. */
  method Query(c: Config, roundLimit: int, pick: (nat, State) -> Action) returns (shares: seq<real>, rounds: nat)
    requires ValidConfig(c) && (roundLimit > 0 || !SomeActive(c))
    ensures rounds == if SomeActive(c) then roundLimit else 0
    ensures |shares| == c.n
    ensures forall u: nat :: Active(c, u) ==> shares[u] == Rank(c, rounds, u) / c.deg[u] as real
    ensures forall u: nat :: Active(c, u) ==> shares[u] == Damped(c, rounds, u) / c.deg[u] as real
    ensures DegreesMatch(c) ==> RankSum(c, rounds + 1, c.n) == 0.15 * c.n as real + 0.85 * Kept(c, shares, c.n)
    ensures DegreesMatch(c) && (forall u: nat :: u < c.n ==> Active(c, u)) ==> Kept(c, shares, c.n) == c.n as real
  {
    shares, rounds := Iterate(c, roundLimit, pick);
    SharesLaw(c, shares, rounds);
  }
}
