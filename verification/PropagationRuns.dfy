/** The min-propagation protocol over whole runs: what the coordinator's loop returns, how many rounds
    it takes, and what the replicas hold in between. */
module PropagationRuns {
  import opened Graphs
  import opened Partitions
  import opened MinPropagation
  import opened PropagationSafety
  import opened PropagationReplicas

  /** The round-start values are prices of walks and undercut every walk of at most `round` edges. */
  ghost predicate BaseInRange(c: Config, s: State)
    requires ValidConfig(c) && Typed(c, s)
  {
    forall v: nat :: v < c.g.n ==>
      && s.base[v] <= c.init[v]
      && Realized(c.g, c.init, v, s.base[v])
      && UndercutsShort(c.g, c.init, v, s.base[v], s.round)
  }

  ghost predicate RoundsInRange(c: Config, s: State) {
    s.round <= c.g.n && (s.round == c.g.n ==> s.active == {})
  }

  ghost predicate Inv(c: Config, s: State)
    requires ValidConfig(c)
  {
    && Typed(c, s) && Sound(c, s) && Accounted(c, s)
    && Converging(c, s) && Traced(c, s)
    && RoundWork(c, s) && QuietIfOptimal(c, s)
    && BaseInRange(c, s) && RoundsInRange(c, s)
  }

  /** A state between rounds: fresh workers, empty network, every replica at the round-start values. */
  ghost predicate Settled(c: Config, s: State)
    requires ValidConfig(c)
  {
    && Typed(c, s) && s.sent == {}
    && (forall p :: 0 <= p < |s.workers| ==> s.workers[p] == FRESH)
    && (forall r :: 0 <= r < |s.net| ==> s.net[r] == multiset{})
    && (forall r :: 0 <= r < |s.vals| ==> s.vals[r] == s.base)
  }

  ghost predicate ActiveCoversWork(c: Config, s: State)
    requires ValidConfig(c) && Typed(c, s)
  {
    forall u: nat, k: nat :: HasEdge(c.g, u, k) ==>
      u in s.active || s.base[c.g.out[u][k].dst] <= s.base[u] + c.g.out[u][k].w
  }

  lemma SettledAccounted(c: Config, s: State)
    requires ValidConfig(c) && Settled(c, s) && ActiveCoversWork(c, s)
    ensures Accounted(c, s) && RoundWork(c, s)
  {
    forall p: nat, u: nat, k: nat | Owns(c.parts, p, u) && HasEdge(c.g, u, k)
      ensures Relaxed(c, s, p, u, k) || (Pending(c, s, p, u) && Unscanned(s, p, u))
    {
      assert s.vals[c.rep[p]] == s.base;
    }
  }

  lemma SettledConverged(c: Config, s: State)
    requires ValidConfig(c) && Settled(c, s)
    ensures Converging(c, s) && Traced(c, s) && QuietIfOptimal(c, s)
  {
    forall r: nat, r': nat, v: nat | r < c.replicas && r' < c.replicas && v < c.g.n
      ensures Covered(c, s, r, v, s.vals[r'][v])
    {
      assert s.vals[r] == s.vals[r'];
    }
  }

  lemma SettledInv(c: Config, s: State)
    requires ValidConfig(c) && Settled(c, s) && ActiveCoversWork(c, s)
    requires BaseInRange(c, s) && RoundsInRange(c, s)
    ensures Inv(c, s)
  {
    SettledAccounted(c, s);
    SettledConverged(c, s);
    forall r: nat, v: nat | r < c.replicas && v < c.g.n
      ensures Realized(c.g, c.init, v, s.vals[r][v])
    {
      assert s.vals[r] == s.base;
    }
  }

  lemma InitialInv(c: Config)
    requires ValidConfig(c)
    ensures Inv(c, Initial(c))
  {
    var s := Initial(c);
    forall v: nat | v < c.g.n
      ensures Realized(c.g, c.init, v, c.init[v]) && UndercutsShort(c.g, c.init, v, c.init[v], 0)
    {
      RealizedStart(c.g, c.init, v);
    }
    if c.g.n == 0 { assert s.active == {}; }
    SettledInv(c, s);
  }

  lemma StepAccounted(c: Config, s: State, a: Action)
    requires ValidConfig(c) && Typed(c, s) && Sound(c, s) && Accounted(c, s) && Enabled(c, s, a)
    ensures Typed(c, Apply(c, s, a)) && Sound(c, Apply(c, s, a)) && Accounted(c, Apply(c, s, a))
  {
    StepSound(c, s, a);
    StepTraffic(c, s, a);
    StepStale(c, s, a);
    StepWork(c, s, a);
  }

  lemma StepRanges(c: Config, s: State, a: Action)
    requires ValidConfig(c) && Typed(c, s) && Enabled(c, s, a) && Typed(c, Apply(c, s, a))
    requires BaseInRange(c, s) && RoundsInRange(c, s)
    ensures BaseInRange(c, Apply(c, s, a)) && RoundsInRange(c, Apply(c, s, a))
  {
    var t := Apply(c, s, a);
    assert t.base == s.base && t.round == s.round && t.active == s.active;
  }

  lemma StepInv(c: Config, s: State, a: Action)
    requires ValidConfig(c) && Inv(c, s) && Enabled(c, s, a)
    ensures Inv(c, Apply(c, s, a))
  {
    StepAccounted(c, s, a);
    StepConverging(c, s, a);
    StepTraced(c, s, a);
    StepRoundWork(c, s, a);
    StepQuiet(c, s, a);
    StepRanges(c, s, a);
  }

  // ---- The barrier ----

  lemma RepliesMember(ws: seq<Worker>, u: nat)
    ensures u in Replies(ws) <==> exists q: nat :: q < |ws| && u in ws[q].next
  {
  }

  lemma HasReplica(c: Config, v: nat)
    requires ValidConfig(c) && v < c.g.n
    ensures 0 < c.replicas
  {
    assert Owned(c.parts, v);
    var p: nat :| Owns(c.parts, p, v);
    assert c.rep[p] < c.replicas;
  }

  lemma EndRoundTyped(c: Config, s: State)
    requires ValidConfig(c) && Typed(c, s)
    ensures Typed(c, EndRound(c, s))
  {
  }

  lemma EndRoundSettled(c: Config, s: State)
    requires ValidConfig(c) && Inv(c, s) && RoundOver(s)
    ensures Settled(c, EndRound(c, s))
  {
    EndRoundTyped(c, s);
    if 0 < c.replicas {
      forall r: nat | r < c.replicas
        ensures s.vals[r] == s.vals[0]
      {
        ReplicasAgree(c, s);
      }
    }
  }

  /** The agreed values at the end of a round cannot be lowered from the round-start values. */
  lemma RoundRelaxes(c: Config, s: State, u: nat, k: nat)
    requires ValidConfig(c) && Inv(c, s) && RoundOver(s) && HasEdge(c.g, u, k)
    ensures Typed(c, EndRound(c, s))
    ensures EndRound(c, s).base[c.g.out[u][k].dst] <= s.base[u] + c.g.out[u][k].w
  {
    EndRoundSettled(c, s);
    var t := EndRound(c, s);
    assert Owned(c.parts, u);
    var p: nat :| Owns(c.parts, p, u);
    assert !Unscanned(s, p, u) && !Scanning(s, p, u, k);
    assert t.vals[c.rep[p]] == t.base;
  }

  lemma RoundLowers(c: Config, s: State, v: nat)
    requires ValidConfig(c) && Inv(c, s) && RoundOver(s) && v < c.g.n
    ensures Typed(c, EndRound(c, s))
    ensures EndRound(c, s).base[v] <= s.base[v] && Realized(c.g, c.init, v, EndRound(c, s).base[v])
  {
    EndRoundSettled(c, s);
    HasReplica(c, v);
    assert EndRound(c, s).base == s.vals[0];
  }

  /** One walk of at most one more edge. */
  lemma RoundUndercutsWalk(c: Config, s: State, wk: Walk)
    requires ValidConfig(c) && Inv(c, s) && RoundOver(s) && IsWalk(c.g, wk) && Len(wk) <= s.round + 1
    ensures Typed(c, EndRound(c, s))
    ensures EndRound(c, s).base[End(c.g, wk)] <= Price(c.g, c.init, wk)
  {
    RoundLowers(c, s, End(c.g, wk));
    if wk.Then? {
      var u := End(c.g, wk.prefix);
      assert WalkTo(c.g, wk.prefix, u) && HasEdge(c.g, u, wk.k);
      RoundRelaxes(c, s, u, wk.k);
    }
  }

  /** One more round undercuts walks one edge longer. */
  lemma RoundUndercuts(c: Config, s: State, v: nat)
    requires ValidConfig(c) && Inv(c, s) && RoundOver(s) && v < c.g.n
    ensures Typed(c, EndRound(c, s))
    ensures UndercutsShort(c.g, c.init, v, EndRound(c, s).base[v], s.round + 1)
  {
    EndRoundTyped(c, s);
    var y := EndRound(c, s).base[v];
    forall wk | WalkTo(c.g, wk, v) && Len(wk) <= s.round + 1
      ensures y <= Price(c.g, c.init, wk)
    {
      RoundUndercutsWalk(c, s, wk);
    }
  }

  /** After `n - 1` rounds the values are least prices, so the `n`-th round activates nothing. */
  lemma LastRoundIsQuiet(c: Config, s: State)
    requires ValidConfig(c) && Inv(c, s) && RoundOver(s) && s.round + 1 == c.g.n
    ensures Replies(s.workers) == {}
  {
    forall v: nat | v < c.g.n
      ensures Least(c.g, c.init, v, s.base[v])
    {
      ShortWalksSuffice(c.g, c.init, v, s.base[v]);
    }
    assert Optimal(c, s.base);
  }

  /** The edges that can still lower a value leave vertices of the new active set. */
  lemma BarrierWork(c: Config, s: State)
    requires ValidConfig(c) && Inv(c, s) && RoundOver(s) && Settled(c, EndRound(c, s))
    ensures ActiveCoversWork(c, EndRound(c, s))
  {
    var t := EndRound(c, s);
    forall u: nat, k: nat | HasEdge(c.g, u, k)
      ensures u in t.active || t.base[c.g.out[u][k].dst] <= t.base[u] + c.g.out[u][k].w
    {
      assert Owned(c.parts, u);
      var p: nat :| Owns(c.parts, p, u);
      if Pending(c, s, p, u) {
        var q: nat :| Holds(c, s, q, u);
        RepliesMember(s.workers, u);
      } else {
        assert !Scanning(s, p, u, k) && Relaxed(c, s, p, u, k);
        assert s.vals[c.rep[p]] == t.base;
      }
    }
  }

  lemma EndRoundInv(c: Config, s: State)
    requires ValidConfig(c) && Inv(c, s) && RoundOver(s)
    ensures Inv(c, EndRound(c, s)) && AtBarrier(EndRound(c, s))
  {
    EndRoundSettled(c, s);
    BarrierWork(c, s);
    var t := EndRound(c, s);
    forall v: nat | v < c.g.n
      ensures t.base[v] <= c.init[v] && Realized(c.g, c.init, v, t.base[v])
      ensures UndercutsShort(c.g, c.init, v, t.base[v], t.round)
    {
      RoundLowers(c, s, v);
      RoundUndercuts(c, s, v);
    }
    if t.round == c.g.n { LastRoundIsQuiet(c, s); }
    SettledInv(c, t);
  }

  // ---- Whole runs ----

  ghost predicate Steps(c: Config, s: State, t: State)
    requires ValidConfig(c)
  {
    Typed(c, s) && Next(c, s, t)
  }

  /** A run from the loaded state: any interleaving of the workers, the network and the coordinator. */
  ghost predicate Run(c: Config, tr: seq<State>)
    requires ValidConfig(c)
  {
    && |tr| > 0 && tr[0] == Initial(c)
    && forall i: nat :: i + 1 < |tr| ==> Steps(c, tr[i], tr[i + 1])
  }

  /** `s` is the last state of the run `tr`. */
  ghost predicate OnRun(c: Config, tr: seq<State>, s: State)
    requires ValidConfig(c)
  {
    Run(c, tr) && tr[|tr| - 1] == s
  }

  lemma OneStepOn(c: Config, tr: seq<State>, s: State, t: State)
    requires ValidConfig(c) && OnRun(c, tr, s) && Typed(c, s) && Next(c, s, t)
    ensures OnRun(c, tr + [t], t)
  {
    var longer := tr + [t];
    forall i: nat | i + 1 < |longer|
      ensures Steps(c, longer[i], longer[i + 1])
    {
      if i + 1 < |tr| { assert Steps(c, tr[i], tr[i + 1]); }
    }
  }

  /** How many rounds have ended in a run. */
  ghost function RoundsEnded(tr: seq<State>): nat {
    if |tr| <= 1 then 0
    else RoundsEnded(tr[..|tr| - 1]) + if RoundOver(tr[|tr| - 2]) then 1 else 0
  }

  lemma StepsRound(c: Config, s: State, t: State)
    requires ValidConfig(c) && Steps(c, s, t)
    ensures s.active != {} && t.round == s.round + if RoundOver(s) then 1 else 0
  {
  }

  lemma RunFront(c: Config, tr: seq<State>)
    requires ValidConfig(c) && Run(c, tr) && |tr| > 1
    ensures Run(c, tr[..|tr| - 1]) && Steps(c, tr[|tr| - 2], tr[|tr| - 1])
  {
    var front := tr[..|tr| - 1];
    forall i: nat | i + 1 < |front|
      ensures Steps(c, front[i], front[i + 1])
    {
      assert Steps(c, tr[i], tr[i + 1]);
    }
    var last: nat := |tr| - 2;
    assert Steps(c, tr[last], tr[last + 1]);
  }

  /** The coordinator counts the rounds that have ended. */
  lemma {:induction false} RunCounts(c: Config, tr: seq<State>)
    requires ValidConfig(c) && Run(c, tr)
    ensures tr[|tr| - 1].round == RoundsEnded(tr)
  {
    if |tr| > 1 {
      RunFront(c, tr);
      StepsRound(c, tr[|tr| - 2], tr[|tr| - 1]);
      RunCounts(c, tr[..|tr| - 1]);
    }
  }

  /** It goes on only with something active. */
  lemma RunActive(c: Config, tr: seq<State>)
    requires ValidConfig(c) && Run(c, tr)
    ensures forall i: nat :: i + 1 < |tr| ==> tr[i].active != {}
  {
    forall i: nat | i + 1 < |tr|
      ensures tr[i].active != {}
    {
      assert Steps(c, tr[i], tr[i + 1]);
    }
  }

  lemma NextInv(c: Config, s: State, t: State)
    requires ValidConfig(c) && Inv(c, s) && Next(c, s, t)
    ensures Inv(c, t)
  {
    if RoundOver(s) && t == EndRound(c, s) {
      EndRoundInv(c, s);
    } else {
      var a :| Enabled(c, s, a) && t == Apply(c, s, a);
      StepInv(c, s, a);
    }
  }

  lemma StepsInv(c: Config, tr: seq<State>, i: nat)
    requires ValidConfig(c) && Run(c, tr) && i + 1 < |tr| && Inv(c, tr[i])
    ensures Inv(c, tr[i + 1])
  {
    assert Steps(c, tr[i], tr[i + 1]);
    NextInv(c, tr[i], tr[i + 1]);
  }

  lemma RunInv(c: Config, tr: seq<State>, i: nat)
    requires ValidConfig(c) && Run(c, tr) && i < |tr|
    ensures Inv(c, tr[i])
  {
    InitialInv(c);
    for j := 0 to i
      invariant Inv(c, tr[j])
    {
      StepsInv(c, tr, j);
    }
  }

  lemma ExitAgrees(c: Config, s: State, r: nat, r': nat, v: nat)
    requires ValidConfig(c) && Inv(c, s) && Exited(s) && r < c.replicas && r' < c.replicas && v < c.g.n
    ensures s.vals[r][v] == s.vals[r'][v]
  {
    assert Covered(c, s, r', v, s.vals[r][v]) && Covered(c, s, r, v, s.vals[r'][v]);
  }

  lemma ExitRelaxed(c: Config, s: State, r: nat, u: nat, k: nat)
    requires ValidConfig(c) && Inv(c, s) && Exited(s) && r < c.replicas && HasEdge(c.g, u, k)
    ensures s.vals[r][c.g.out[u][k].dst] <= s.vals[r][u] + c.g.out[u][k].w
  {
    assert Owned(c.parts, u);
    var p: nat :| Owns(c.parts, p, u);
    assert !Pending(c, s, p, u) && !Scanning(s, p, u, k) && Relaxed(c, s, p, u, k);
    ExitAgrees(c, s, c.rep[p], r, u);
    ExitAgrees(c, s, c.rep[p], r, c.g.out[u][k].dst);
  }

  /** Correctness: whenever the coordinator's loop has ended, every replica holds the least prices. */
  lemma ExitIsLeast(c: Config, s: State)
    requires ValidConfig(c) && Inv(c, s) && Exited(s)
    ensures forall r: nat, v: nat :: r < c.replicas && v < c.g.n ==> Least(c.g, c.init, v, s.vals[r][v])
  {
    forall r: nat | r < c.replicas
      ensures forall v: nat :: v < c.g.n ==> Least(c.g, c.init, v, s.vals[r][v])
    {
      forall u: nat, k: nat | HasEdge(c.g, u, k)
        ensures s.vals[r][c.g.out[u][k].dst] <= s.vals[r][u] + c.g.out[u][k].w
      {
        ExitRelaxed(c, s, r, u, k);
      }
      StableIsLeast(c.g, c.init, s.vals[r]);
    }
  }

  lemma RunExitIsLeast(c: Config, tr: seq<State>, i: nat)
    requires ValidConfig(c) && Run(c, tr) && i < |tr| && Exited(tr[i])
    ensures Typed(c, tr[i])
    ensures forall r: nat, v: nat :: r < c.replicas && v < c.g.n ==>
      Least(c.g, c.init, v, tr[i].vals[r][v])
  {
    RunInv(c, tr, i);
    ExitIsLeast(c, tr[i]);
  }

  /** Round bound: after `k` rounds every value undercuts every walk of at most `k` edges, and after
      `n` rounds, however the workers interleave, nothing is active. */
  lemma RunRounds(c: Config, tr: seq<State>, i: nat)
    requires ValidConfig(c) && Run(c, tr) && i < |tr|
    ensures Typed(c, tr[i])
    ensures tr[i].round <= c.g.n
    ensures tr[i].round == c.g.n ==> tr[i].active == {}
    ensures forall r: nat, v: nat :: r < c.replicas && v < c.g.n ==>
      UndercutsShort(c.g, c.init, v, tr[i].vals[r][v], tr[i].round)
  {
    RunInv(c, tr, i);
  }

  /** Replica convergence at every barrier of every run. */
  lemma RunReplicasAgree(c: Config, tr: seq<State>, i: nat)
    requires ValidConfig(c) && Run(c, tr) && i < |tr| && RoundOver(tr[i])
    ensures Typed(c, tr[i])
    ensures forall r: nat, r': nat, v: nat :: r < c.replicas && r' < c.replicas && v < c.g.n ==>
      tr[i].vals[r][v] == tr[i].vals[r'][v]
    ensures forall r: nat, v: nat :: r < c.replicas && v < c.g.n ==>
      && tr[i].vals[r][v] <= tr[i].base[v]
      && (forall y: nat :: Msg(v, y) in tr[i].sent ==> tr[i].vals[r][v] <= y)
      && (tr[i].vals[r][v] == tr[i].base[v] || Msg(v, tr[i].vals[r][v]) in tr[i].sent)
  {
    RunInv(c, tr, i);
    ReplicasAgree(c, tr[i]);
  }
}
