/** Pull-mode connected components over whole runs: what a round achieves although labels change while they
    are read, when the reply bitmap is empty although bits can be lost, and how many rounds it takes. */
module PullCcRounds {
  import opened Graphs
  import opened Partitions
  import opened Bitmaps
  import opened PullCc

  // ---- Labels are ids that reach the vertex ----

  ghost predicate Label(c: Config, v: nat, y: nat)
    requires ValidConfig(c)
  {
    Realized(c.g, Ids(c.g.n), v, y)
  }

  ghost predicate LabelsOk(c: Config, s: State)
    requires ValidConfig(c) && Typed(c, s)
  {
    forall r: nat, v: nat :: r < c.replicas && v < c.g.n ==> Label(c, v, s.vals[r][v])
  }

  ghost predicate BestOk(c: Config, w: Worker)
    requires ValidConfig(c)
  {
    w.pc.Read? || w.pc.Write? ==> w.u < c.g.n && Label(c, w.u, w.best)
  }

  lemma PulledLabel(c: Config, x: nat, u: nat, y: nat)
    requires ValidConfig(c) && u < c.g.n && x in c.inn[u] && x < c.g.n && Label(c, x, y)
    ensures Label(c, u, y)
  {
    assert EdgeTo(c.g, x, u);
    var k: nat :| HasEdge(c.g, x, k) && c.g.out[x][k].dst == u;
    RealizedStep(c.g, Ids(c.g.n), x, k, y);
  }

  lemma StepLabel(c: Config, s: State, a: Action, r: nat, v: nat)
    requires ValidConfig(c) && Typed(c, s) && Enabled(c, s, a) && Typed(c, Apply(c, s, a))
    requires LabelsOk(c, s) && UpdatesOk(c, s) && (forall b :: 0 <= b < |c.rep| ==> BestOk(c, s.workers[b]))
    requires r < c.replicas && v < c.g.n
    ensures Label(c, v, Apply(c, s, a).vals[r][v])
  {
    if a.Store? {
      assert BestOk(c, s.workers[a.b]);
    } else if a.Deliver? {
      assert Owned(c.blocks, a.m.v);
      var b: nat :| Owns(c.blocks, b, a.m.v);
      assert OnItsWay(s, a.r, a.m) && UpdateOk(c, s, b, a.m);
    }
  }

  lemma StepBest(c: Config, s: State, a: Action)
    requires ValidConfig(c) && Typed(c, s) && Enabled(c, s, a) && Typed(c, Apply(c, s, a)) && !a.Deliver?
    requires LabelsOk(c, s) && BestOk(c, s.workers[a.b])
    ensures BestOk(c, After(c, s, a))
  {
    var w := s.workers[a.b];
    if a.Take? {
      OwnerInGraph(c, a.b, w.u);
    } else if a.ReadNext? && w.i < |c.inn[w.u]| {
      var x := c.inn[w.u][w.i];
      assert x in c.inn[w.u] && EdgeTo(c.g, x, w.u);
      PulledLabel(c, x, w.u, s.vals[c.rep[a.b]][x]);
    }
  }

  // ---- A settled label is at most every in-neighbour's label at the start of the round ----

  ghost predicate Under(c: Config, s: State, y: nat, u: nat, count: nat)
    requires ValidConfig(c) && Typed(c, s) && u < c.g.n && count <= |c.inn[u]|
  {
    forall j: nat :: j < count ==> c.inn[u][j] < c.g.n && y <= s.base[c.inn[u][j]]
  }

  ghost predicate ScanOk(c: Config, s: State, w: Worker)
    requires ValidConfig(c) && Typed(c, s)
  {
    && (w.pc.Read? ==> w.u < c.g.n && w.i <= |c.inn[w.u]| && Under(c, s, w.best, w.u, w.i))
    && (w.pc.Write? || Stored(w) ==> w.u < c.g.n && Under(c, s, w.best, w.u, |c.inn[w.u]|))
  }

  ghost predicate Pulled(c: Config, s: State, b: nat, v: nat)
    requires ValidConfig(c) && Typed(c, s) && b < |c.rep| && v < c.g.n
  {
    Settled(s.workers[b], v) ==> Under(c, s, OwnVal(c, s, b, v), v, |c.inn[v]|)
  }

  ghost predicate AllPulled(c: Config, s: State)
    requires ValidConfig(c) && Typed(c, s)
  {
    forall b: nat, v: nat :: Owns(c.blocks, b, v) ==> Pulled(c, s, b, v)
  }

  /** Values fall within a round. */
  lemma AtMostBase(c: Config, s: State, r: nat, v: nat)
    requires ValidConfig(c) && Typed(c, s) && VerticesOk(c, s) && r < c.replicas && v < c.g.n
    ensures s.vals[r][v] <= s.base[v]
  {
    assert Owned(c.blocks, v);
    var b: nat :| Owns(c.blocks, b, v);
    assert VertexOk(c, s, b, v, r);
  }

  lemma StepScan(c: Config, s: State, a: Action)
    requires ValidConfig(c) && Typed(c, s) && Enabled(c, s, a) && Typed(c, Apply(c, s, a)) && !a.Deliver?
    requires VerticesOk(c, s) && ScanOk(c, s, s.workers[a.b])
    ensures ScanOk(c, s, After(c, s, a))
  {
    var w := s.workers[a.b];
    if a.Take? {
      OwnerInGraph(c, a.b, w.u);
    } else if a.ReadNext? && w.i < |c.inn[w.u]| {
      var x := c.inn[w.u][w.i];
      assert x in c.inn[w.u] && EdgeTo(c.g, x, w.u);
      AtMostBase(c, s, c.rep[a.b], x);
    }
  }

  lemma StepPulled(c: Config, s: State, a: Action, b: nat, v: nat)
    requires ValidConfig(c) && Typed(c, s) && Enabled(c, s, a) && Typed(c, Apply(c, s, a)) && Consistent(c, s)
    requires Owns(c.blocks, b, v) && v < c.g.n && Pulled(c, s, b, v) && ScanOk(c, s, s.workers[b])
    ensures Pulled(c, Apply(c, s, a), b, v)
  {
    var t, w := Apply(c, s, a), s.workers[b];
    if a == Store(b) && v == w.u {
    } else {
      OwnKept(c, s, a, b, v);
      if Settled(t.workers[b], v) && !Settled(w, v) {
        // the scan found nothing smaller
        assert a == ReadNext(b) && v == w.u && w.best >= w.val;
        assert WorkerOk(c, s, b) && VertexOk(c, s, b, v, c.rep[b]);
      }
    }
  }

  // ---- The reply bitmap ----

  lemma {:induction false} OrPositive(a: nat, b: nat)
    ensures Or(a, b) > 0 <==> a > 0 || b > 0
    decreases a + b
  {
    if a > 0 || b > 0 {
      if a / 2 > 0 || b / 2 > 0 { OrPositive(a / 2, b / 2); }
    }
  }

  lemma {:induction false} ReplyPositive(marks: seq<seq<nat>>, k: nat)
    requires forall p :: 0 <= p < |marks| ==> k < |marks[p]|
    ensures Reply(marks, k) > 0 <==> exists p: nat :: p < |marks| && marks[p][k] > 0
  {
    if marks != [] {
      var front, last := marks[..|marks| - 1], marks[|marks| - 1];
      ReplyPositive(front, k);
      OrPositive(Reply(front, k), last[k]);
      if p: nat :| p < |front| && front[p][k] > 0 { assert marks[p][k] > 0; }
      if p: nat :| p < |marks| && marks[p][k] > 0 { assert p < |front| ==> front[p][k] > 0; }
    }
  }

  /** Vertex `v`'s label has fallen this round. */
  ghost predicate Fell(c: Config, s: State, b: nat, v: nat)
    requires ValidConfig(c) && Typed(c, s)
  {
    Owns(c.blocks, b, v) && b < |c.rep| && v < c.g.n && OwnVal(c, s, b, v) < s.base[v]
  }

  /** A fallen label has left some bit in its word, perhaps not its own, and a word with a bit in it means
      some label fell. */
  ghost predicate MarksOk(c: Config, s: State)
    requires ValidConfig(c) && Typed(c, s)
  {
    && (forall b: nat, v: nat :: Fell(c, s, b, v) && v < s.workers[b].u ==> s.marks[c.part[b]][v / 32] > 0)
    && (forall p: nat, k: nat :: p < c.partitions && k < WordCount(c.g.n) && s.marks[p][k] > 0 ==>
          exists b: nat, v: nat :: Fell(c, s, b, v))
  }

  lemma MarkedWord(word: nat, k: nat)
    ensures Or(word, Mask(k)) > 0
  {
    OrPositive(word, Mask(k));
  }

  /** Nonzero words stay nonzero. */
  lemma WordKept(c: Config, s: State, a: Action, p: nat, k: nat)
    requires ValidConfig(c) && Typed(c, s) && Enabled(c, s, a) && Typed(c, Apply(c, s, a))
    requires p < c.partitions && k < WordCount(c.g.n)
    ensures s.marks[p][k] > 0 ==> Apply(c, s, a).marks[p][k] > 0
    ensures Apply(c, s, a).marks[p][k] > 0 ==>
      s.marks[p][k] > 0 || (a.StoreWord? && p == c.part[a.b] && k == s.workers[a.b].u / 32)
    ensures a.StoreWord? ==> Apply(c, s, a).marks[c.part[a.b]][s.workers[a.b].u / 32] > 0
  {
    if a.StoreWord? { MarkedWord(s.workers[a.b].word, s.workers[a.b].u % 32); }
  }

  lemma FellKept(c: Config, s: State, a: Action, b: nat, v: nat)
    requires ValidConfig(c) && Typed(c, s) && Enabled(c, s, a) && Typed(c, Apply(c, s, a)) && Consistent(c, s)
    requires Owns(c.blocks, b, v) && b < |c.rep| && v < c.g.n
    ensures Fell(c, s, b, v) ==> Fell(c, Apply(c, s, a), b, v)
    ensures Fell(c, Apply(c, s, a), b, v) ==> Fell(c, s, b, v) || (a == Store(b) && v == s.workers[b].u)
  {
    if a == Store(b) && v == s.workers[b].u {
      assert WorkerOk(c, s, b);
    } else {
      OwnKept(c, s, a, b, v);
    }
  }

  lemma FellMarked(c: Config, s: State, a: Action, b: nat, v: nat)
    requires ValidConfig(c) && Typed(c, s) && Enabled(c, s, a) && Typed(c, Apply(c, s, a)) && Consistent(c, s)
    requires MarksOk(c, s) && Fell(c, Apply(c, s, a), b, v) && v < Apply(c, s, a).workers[b].u
    ensures Apply(c, s, a).marks[c.part[b]][v / 32] > 0
  {
    FellKept(c, s, a, b, v);
    WordKept(c, s, a, c.part[b], v / 32);
    assert VertexOk(c, s, b, v, c.rep[b]);
    if v >= s.workers[b].u { assert v == s.workers[b].u && a == StoreWord(b); }
  }

  lemma StepMarks(c: Config, s: State, a: Action)
    requires ValidConfig(c) && Typed(c, s) && Enabled(c, s, a) && Typed(c, Apply(c, s, a)) && Consistent(c, s)
    requires MarksOk(c, s)
    ensures MarksOk(c, Apply(c, s, a))
  {
    var t := Apply(c, s, a);
    forall b: nat, v: nat | Fell(c, t, b, v) && v < t.workers[b].u
      ensures t.marks[c.part[b]][v / 32] > 0
    {
      FellMarked(c, s, a, b, v);
    }
    forall p: nat, k: nat | p < c.partitions && k < WordCount(c.g.n) && t.marks[p][k] > 0
      ensures exists b: nat, v: nat :: Fell(c, t, b, v)
    {
      WordKept(c, s, a, p, k);
      if s.marks[p][k] > 0 {
        var b: nat, v: nat :| Fell(c, s, b, v);
        FellKept(c, s, a, b, v);
      } else {
        assert WorkerOk(c, s, a.b) && Fell(c, s, a.b, s.workers[a.b].u);
        FellKept(c, s, a, a.b, s.workers[a.b].u);
      }
    }
  }
}
