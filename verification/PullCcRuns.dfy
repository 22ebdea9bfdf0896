/** Pull-mode connected components driven to its end. */
module PullCcRuns {
  import opened Graphs
  import opened Partitions
  import opened Sums
  import opened PullCc
  import opened PullCcRounds

  ghost predicate WorkersScan(c: Config, s: State)
    requires ValidConfig(c) && Typed(c, s)
  {
    forall b: nat :: b < |c.rep| ==> BestOk(c, s.workers[b]) && ScanOk(c, s, s.workers[b])
  }

  /** The round-start labels: reaching ids, undercutting walks of at most `round` edges; once the loop has
      ended no edge can lower one. */
  ghost predicate BaseOk(c: Config, s: State)
    requires ValidConfig(c) && Typed(c, s)
  {
    && (forall v: nat :: v < c.g.n ==>
          Label(c, v, s.base[v]) && UndercutsShort(c.g, Ids(c.g.n), v, s.base[v], s.round))
    && (!s.active ==> Stable(c.g, s.base))
    && s.round <= c.g.n
    && (s.round == c.g.n ==> !s.active)
  }

  ghost predicate Inv(c: Config, s: State)
    requires ValidConfig(c)
  {
    && Typed(c, s) && Consistent(c, s) && LabelsOk(c, s) && WorkersScan(c, s)
    && AllPulled(c, s) && MarksOk(c, s) && BaseOk(c, s)
  }

  lemma StepLabels(c: Config, s: State, a: Action)
    requires ValidConfig(c) && Typed(c, s) && Enabled(c, s, a) && Typed(c, Apply(c, s, a)) && Consistent(c, s)
    requires LabelsOk(c, s) && WorkersScan(c, s)
    ensures LabelsOk(c, Apply(c, s, a))
  {
    forall r: nat, v: nat | r < c.replicas && v < c.g.n
      ensures Label(c, v, Apply(c, s, a).vals[r][v])
    {
      StepLabel(c, s, a, r, v);
    }
  }

  lemma StepScans(c: Config, s: State, a: Action)
    requires ValidConfig(c) && Typed(c, s) && Enabled(c, s, a) && Typed(c, Apply(c, s, a)) && Consistent(c, s)
    requires LabelsOk(c, s) && WorkersScan(c, s)
    ensures WorkersScan(c, Apply(c, s, a))
  {
    var t := Apply(c, s, a);
    forall b: nat | b < |c.rep|
      ensures BestOk(c, t.workers[b]) && ScanOk(c, t, t.workers[b])
    {
      assert BestOk(c, s.workers[b]) && ScanOk(c, s, s.workers[b]);
      if !a.Deliver? && a.b == b {
        StepBest(c, s, a);
        StepScan(c, s, a);
        assert ScanOk(c, s, t.workers[b]);
      }
    }
  }

  lemma StepAllPulled(c: Config, s: State, a: Action)
    requires ValidConfig(c) && Typed(c, s) && Enabled(c, s, a) && Typed(c, Apply(c, s, a)) && Consistent(c, s)
    requires WorkersScan(c, s) && AllPulled(c, s)
    ensures AllPulled(c, Apply(c, s, a))
  {
    forall b: nat, v: nat | Owns(c.blocks, b, v)
      ensures Pulled(c, Apply(c, s, a), b, v)
    {
      assert ScanOk(c, s, s.workers[b]) && Pulled(c, s, b, v);
      StepPulled(c, s, a, b, v);
    }
  }

  lemma StepBase(c: Config, s: State, a: Action)
    requires ValidConfig(c) && Typed(c, s) && Enabled(c, s, a) && Typed(c, Apply(c, s, a)) && BaseOk(c, s)
    ensures BaseOk(c, Apply(c, s, a))
  {
  }

  lemma StepInv(c: Config, s: State, a: Action)
    requires ValidConfig(c) && Inv(c, s) && Enabled(c, s, a)
    ensures Inv(c, Apply(c, s, a))
  {
    StepTyped(c, s, a);
    StepConsistent(c, s, a);
    StepLabels(c, s, a);
    StepScans(c, s, a);
    StepAllPulled(c, s, a);
    StepMarks(c, s, a);
    StepBase(c, s, a);
  }

  // ---- Between rounds ----

  ghost predicate Between(c: Config, s: State)
    requires ValidConfig(c)
  {
    && Typed(c, s) && AtBarrier(c, s) && s.marks == NoMarks(c)
    && forall r :: 0 <= r < c.replicas ==> s.vals[r] == s.base
  }

  lemma BetweenConsistent(c: Config, s: State)
    requires ValidConfig(c) && Between(c, s)
    ensures Consistent(c, s) && AllPulled(c, s)
  {
    forall b: nat, v: nat, r: nat | Owns(c.blocks, b, v) && r < c.replicas
      ensures VertexOk(c, s, b, v, r)
    {
      assert s.vals[r] == s.base && s.vals[c.rep[b]] == s.base;
    }
    forall b: nat | b < |c.rep|
      ensures WorkerOk(c, s, b)
    {
      assert s.workers[b] == Fresh(c, b);
    }
    forall b: nat, v: nat | Owns(c.blocks, b, v)
      ensures Pulled(c, s, b, v)
    {
      assert s.workers[b] == Fresh(c, b);
    }
  }

  lemma BetweenMarks(c: Config, s: State)
    requires ValidConfig(c) && Between(c, s)
    ensures MarksOk(c, s) && WorkersScan(c, s)
  {
    forall b: nat, v: nat
      ensures !Fell(c, s, b, v)
    {
      if b < |c.rep| { assert s.vals[c.rep[b]] == s.base; }
    }
    forall b: nat | b < |c.rep|
      ensures s.workers[b].pc.Head?
    {
      assert s.workers[b] == Fresh(c, b);
    }
  }

  lemma BetweenLabels(c: Config, s: State)
    requires ValidConfig(c) && Between(c, s) && BaseOk(c, s)
    ensures LabelsOk(c, s)
  {
    forall r: nat, v: nat | r < c.replicas && v < c.g.n
      ensures Label(c, v, s.vals[r][v])
    {
      assert s.vals[r] == s.base;
    }
  }

  lemma BetweenInv(c: Config, s: State)
    requires ValidConfig(c) && Between(c, s) && BaseOk(c, s)
    ensures Inv(c, s)
  {
    BetweenConsistent(c, s);
    BetweenMarks(c, s);
    BetweenLabels(c, s);
  }

  lemma InitialInv(c: Config)
    requires ValidConfig(c)
    ensures Inv(c, Initial(c)) && AtBarrier(c, Initial(c))
  {
    var s := Initial(c);
    forall b: nat | b < |c.rep|
      ensures ValidWorker(c, b, s.workers[b])
    {
      assert s.workers[b] == Fresh(c, b);
    }
    forall v: nat | v < c.g.n
      ensures Label(c, v, s.base[v])
      ensures UndercutsShort(c.g, Ids(c.g.n), v, s.base[v], 0)
    {
      RealizedStart(c.g, Ids(c.g.n), v);
    }
    BetweenInv(c, s);
  }

  // ---- What a finished round has done ----

  /** Every replica holds the owner's label, which is at most the round-start label of every in-neighbour. */
  lemma RoundSettles(c: Config, s: State, b: nat, v: nat, r: nat)
    requires ValidConfig(c) && Typed(c, s) && Consistent(c, s) && AllPulled(c, s) && RoundOver(s)
    requires Owns(c.blocks, b, v) && r < c.replicas
    ensures v < c.g.n && s.vals[r][v] == OwnVal(c, s, b, v) <= s.base[v]
    ensures Under(c, s, OwnVal(c, s, b, v), v, |c.inn[v]|)
  {
    assert ValidWorker(c, b, s.workers[b]) && s.workers[b].pc.Done?;
    assert VertexOk(c, s, b, v, r) && Pulled(c, s, b, v);
    assert s.net[r] == multiset{};
  }

  lemma HasReplica(c: Config, v: nat) returns (b: nat)
    requires ValidConfig(c) && v < c.g.n
    ensures Owns(c.blocks, b, v) && b < |c.rep| && 0 < c.replicas
  {
    assert Owned(c.blocks, v);
    b :| Owns(c.blocks, b, v);
    assert c.rep[b] < c.replicas;
  }

  lemma EndRoundBetween(c: Config, s: State)
    requires ValidConfig(c) && Inv(c, s) && RoundOver(s)
    ensures Between(c, EndRound(c, s))
  {
    var t := EndRound(c, s);
    forall b: nat | b < |c.rep|
      ensures ValidWorker(c, b, t.workers[b])
    {
      assert t.workers[b] == Fresh(c, b);
    }
    forall r: nat | r < c.replicas
      ensures s.vals[r] == s.vals[0]
    {
      forall v: nat | v < c.g.n
        ensures s.vals[r][v] == s.vals[0][v]
      {
        var b := HasReplica(c, v);
        RoundSettles(c, s, b, v, r);
        RoundSettles(c, s, b, v, 0);
      }
    }
  }

  lemma RoundLabel(c: Config, s: State, v: nat)
    requires ValidConfig(c) && Inv(c, s) && RoundOver(s) && v < c.g.n
    ensures Typed(c, EndRound(c, s))
    ensures Label(c, v, EndRound(c, s).base[v]) && EndRound(c, s).base[v] <= s.base[v]
    ensures Under(c, s, EndRound(c, s).base[v], v, |c.inn[v]|)
  {
    EndRoundBetween(c, s);
    var b := HasReplica(c, v);
    RoundSettles(c, s, b, v, 0);
  }

  lemma RoundEdge(c: Config, s: State, u: nat, k: nat)
    requires ValidConfig(c) && Inv(c, s) && RoundOver(s) && HasEdge(c.g, u, k)
    ensures Typed(c, EndRound(c, s))
    ensures EndRound(c, s).base[c.g.out[u][k].dst] <= s.base[u]
  {
    var v := c.g.out[u][k].dst;
    RoundLabel(c, s, v);
    assert EdgeTo(c.g, u, v) && u in c.inn[v];
    var j: nat :| j < |c.inn[v]| && c.inn[v][j] == u;
  }

  lemma FallIsReported(c: Config, s: State, v: nat)
    requires ValidConfig(c) && Inv(c, s) && RoundOver(s) && v < c.g.n
    requires Typed(c, EndRound(c, s)) && EndRound(c, s).base[v] != s.base[v]
    ensures EndRound(c, s).active
  {
    var b := HasReplica(c, v);
    RoundSettles(c, s, b, v, 0);
    assert Fell(c, s, b, v) && s.workers[b].pc.Done?;
    assert s.marks[c.part[b]][v / 32] > 0;
    ReplyPositive(s.marks, v / 32);
  }

  lemma ReportIsFall(c: Config, s: State) returns (v: nat)
    requires ValidConfig(c) && Inv(c, s) && RoundOver(s) && EndRound(c, s).active
    ensures v < c.g.n && Typed(c, EndRound(c, s)) && EndRound(c, s).base[v] != s.base[v]
  {
    EndRoundBetween(c, s);
    var k: nat :| k < WordCount(c.g.n) && Reply(s.marks, k) > 0;
    ReplyPositive(s.marks, k);
    var p: nat :| p < |s.marks| && s.marks[p][k] > 0;
    var b: nat, u: nat :| Fell(c, s, b, u);
    assert c.rep[b] < c.replicas;
    RoundSettles(c, s, b, u, 0);
    v := u;
  }

  /** The reply is empty exactly when no label fell in the round, whatever bits were lost. */
  lemma ReplyIsExact(c: Config, s: State)
    requires ValidConfig(c) && Inv(c, s) && RoundOver(s)
    ensures Typed(c, EndRound(c, s))
    ensures EndRound(c, s).active <==> EndRound(c, s).base != s.base
  {
    EndRoundBetween(c, s);
    var t := EndRound(c, s);
    if t.base != s.base {
      var v: nat :| v < c.g.n && t.base[v] != s.base[v];
      FallIsReported(c, s, v);
    }
    if t.active {
      var v := ReportIsFall(c, s);
    }
  }

  lemma RoundUndercuts(c: Config, s: State, v: nat)
    requires ValidConfig(c) && Inv(c, s) && RoundOver(s) && v < c.g.n
    ensures Typed(c, EndRound(c, s))
    ensures UndercutsShort(c.g, Ids(c.g.n), v, EndRound(c, s).base[v], s.round + 1)
  {
    RoundLabel(c, s, v);
    var y := EndRound(c, s).base[v];
    forall wk | WalkTo(c.g, wk, v) && Len(wk) <= s.round + 1
      ensures y <= Price(c.g, Ids(c.g.n), wk)
    {
      if wk.Then? {
        var u := End(c.g, wk.prefix);
        assert WalkTo(c.g, wk.prefix, u) && HasEdge(c.g, u, wk.k);
        RoundEdge(c, s, u, wk.k);
      } else {
        assert WalkTo(c.g, wk, v) && Len(wk) <= s.round;
      }
    }
  }

  /** After `n - 1` rounds nothing can fall any more. */
  lemma LastRoundIsQuiet(c: Config, s: State)
    requires ValidConfig(c) && Inv(c, s) && RoundOver(s) && s.round + 1 == c.g.n
    ensures !EndRound(c, s).active
  {
    ReplyIsExact(c, s);
    forall v: nat | v < c.g.n
      ensures EndRound(c, s).base[v] == s.base[v]
    {
      RoundLabel(c, s, v);
      ShortWalksSuffice(c.g, Ids(c.g.n), v, s.base[v]);
    }
  }

  lemma QuietIsStable(c: Config, s: State)
    requires ValidConfig(c) && Inv(c, s) && RoundOver(s) && !EndRound(c, s).active
    ensures Typed(c, EndRound(c, s)) && Stable(c.g, EndRound(c, s).base)
  {
    ReplyIsExact(c, s);
    forall u: nat, k: nat | HasEdge(c.g, u, k)
      ensures s.base[c.g.out[u][k].dst] <= s.base[u] + c.g.out[u][k].w
    {
      RoundEdge(c, s, u, k);
    }
  }

  lemma EndRoundInv(c: Config, s: State)
    requires ValidConfig(c) && Inv(c, s) && RoundOver(s)
    ensures Inv(c, EndRound(c, s)) && AtBarrier(c, EndRound(c, s))
  {
    EndRoundBetween(c, s);
    var t := EndRound(c, s);
    forall v: nat | v < c.g.n
      ensures Label(c, v, t.base[v]) && UndercutsShort(c.g, Ids(c.g.n), v, t.base[v], t.round)
    {
      RoundLabel(c, s, v);
      RoundUndercuts(c, s, v);
    }
    if t.round == c.g.n { LastRoundIsQuiet(c, s); }
    if !t.active { QuietIsStable(c, s); }
    BetweenInv(c, t);
  }

  // ---- Whole runs ----

  ghost predicate Steps(c: Config, s: State, t: State)
    requires ValidConfig(c)
  {
    Typed(c, s) && Next(c, s, t)
  }

  ghost predicate Run(c: Config, tr: seq<State>)
    requires ValidConfig(c)
  {
    && |tr| > 0 && tr[0] == Initial(c)
    && forall i: nat :: i + 1 < |tr| ==> Steps(c, tr[i], tr[i + 1])
  }

  lemma NextInv(c: Config, s: State, t: State)
    requires ValidConfig(c) && Inv(c, s) && Next(c, s, t)
    ensures Inv(c, t)
  {
    if RoundOver(s) && t == EndRound(c, s) {
      EndRoundInv(c, s);
    } else {
      var a :| Enabled(c, s, a) && t == Apply(c, s, a);
      StepInv(c, s, a);
    }
  }

  lemma StepsInv(c: Config, tr: seq<State>, i: nat)
    requires ValidConfig(c) && Run(c, tr) && i + 1 < |tr| && Inv(c, tr[i])
    ensures Inv(c, tr[i + 1])
  {
    assert Steps(c, tr[i], tr[i + 1]);
    NextInv(c, tr[i], tr[i + 1]);
  }

  lemma RunInv(c: Config, tr: seq<State>, i: nat)
    requires ValidConfig(c) && Run(c, tr) && i < |tr|
    ensures Inv(c, tr[i])
  {
    InitialInv(c);
    for j := 0 to i
      invariant Inv(c, tr[j])
    {
      StepsInv(c, tr, j);
    }
  }

  lemma ExitLabel(c: Config, s: State, r: nat, v: nat)
    requires ValidConfig(c) && Inv(c, s) && AtBarrier(c, s) && r < c.replicas && v < c.g.n
    ensures s.vals[r][v] == s.base[v]
  {
    var b := HasReplica(c, v);
    assert s.workers[b] == Fresh(c, b) && VertexOk(c, s, b, v, r);
    assert s.net[r] == multiset{};
  }

  lemma ExitIsSmallest(c: Config, s: State)
    requires ValidConfig(c) && Inv(c, s) && Exited(c, s)
    ensures forall r: nat, v: nat :: r < c.replicas && v < c.g.n ==> SmallestReaching(c.g, v, s.vals[r][v])
  {
    forall v: nat | v < c.g.n
      ensures s.base[v] <= Ids(c.g.n)[v]
    {
      assert WalkTo(c.g, At(v), v);
    }
    StableIsLeast(c.g, Ids(c.g.n), s.base);
    forall r: nat, v: nat | r < c.replicas && v < c.g.n
      ensures SmallestReaching(c.g, v, s.vals[r][v])
    {
      ExitLabel(c, s, r, v);
      LeastIsSmallest(c.g, Ids(c.g.n), v, s.base[v]);
    }
  }

  /** Correctness over every run: when the trigger-all loop has ended, every replica holds the smallest id that
      reaches each vertex. */
  lemma Correct(c: Config, tr: seq<State>, i: nat)
    requires ValidConfig(c) && Run(c, tr) && i < |tr| && Exited(c, tr[i])
    ensures Typed(c, tr[i])
    ensures forall r: nat, v: nat :: r < c.replicas && v < c.g.n ==> SmallestReaching(c.g, v, tr[i].vals[r][v])
  {
    RunInv(c, tr, i);
    ExitIsSmallest(c, tr[i]);
  }

  /** Round bound over every run. */
  lemma RunRounds(c: Config, tr: seq<State>, i: nat)
    requires ValidConfig(c) && Run(c, tr) && i < |tr|
    ensures tr[i].round <= c.g.n && (tr[i].round == c.g.n ==> !tr[i].active)
  {
    RunInv(c, tr, i);
  }
}
