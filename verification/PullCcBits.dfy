/** Which bits of a pull-mode reply can be lost. Blocks of one partition set bits of one bitmap by an unsynchronised
    load and store of a whole word, so a bit can be lost exactly when two blocks of a partition share a word. */
module PullCcBits {
  import opened Graphs
  import opened Partitions
  import opened Bitmaps
  import opened Sums
  import opened PullCc
  import opened PullCcRounds
  import opened PullCcRuns
  import opened PullCcQuery

  // ---- The condition ----

  /** Two blocks of one partition have vertices in the same word. Vertex 0 never gets a smaller label. */
  ghost predicate Meet(blocks: Parts, part: seq<nat>, a: nat, b: nat, u: nat, v: nat) {
    && a != b && Owns(blocks, a, u) && Owns(blocks, b, v) && 0 < u && 0 < v && u / 32 == v / 32
    && a < |part| && b < |part| && part[a] == part[b]
  }

  ghost predicate Clash(blocks: Parts, part: seq<nat>) {
    exists a: nat, b: nat, u: nat, v: nat :: Meet(blocks, part, a, b, u, v)
  }

  ghost predicate Marked(c: Config, s: State, b: nat, v: nat)
    requires ValidConfig(c) && Typed(c, s) && b < |c.rep| && v < c.g.n
  {
    Bit(s.marks[c.part[b]][v / 32], v % 32)
  }

  /** The owner's reply has the bit of exactly the vertices whose labels fell in the round. */
  ghost predicate ReplyIsSet(c: Config, s: State)
    requires ValidConfig(c) && Typed(c, s)
  {
    forall b: nat, v: nat :: Owns(c.blocks, b, v) && b < |c.rep| && v < c.g.n ==> (Marked(c, s, b, v) <==> Fell(c, s, b, v))
  }

  /** At every barrier of every run. */
  ghost predicate BitsExact(c: Config)
    requires ValidConfig(c)
  {
    forall tr: seq<State>, i: nat :: Run(c, tr) && i < |tr| && RoundOver(tr[i]) ==> Typed(c, tr[i]) && ReplyIsSet(c, tr[i])
  }

  // ---- Without shared words no bit is lost ----

  ghost predicate MarkOk(c: Config, s: State, b: nat, v: nat)
    requires ValidConfig(c) && Typed(c, s) && b < |c.rep| && v < c.g.n
  {
    Marked(c, s, b, v) <==> Fell(c, s, b, v) && v < s.workers[b].u
  }

  ghost predicate MarksExact(c: Config, s: State)
    requires ValidConfig(c) && Typed(c, s)
  {
    forall b: nat, v: nat :: Owns(c.blocks, b, v) && b < |c.rep| && v < c.g.n ==> MarkOk(c, s, b, v)
  }

  /** A block about to store a word still holds what the word is. */
  ghost predicate WordsFresh(c: Config, s: State)
    requires ValidConfig(c) && Typed(c, s)
  {
    forall b: nat :: b < |c.rep| && s.workers[b].pc.Merge? ==>
      s.workers[b].u < c.g.n && s.workers[b].word == s.marks[c.part[b]][s.workers[b].u / 32]
  }

  lemma BaseBelowId(c: Config, s: State, v: nat)
    requires ValidConfig(c) && Inv(c, s) && v < c.g.n
    ensures s.base[v] <= v
  {
    assert WalkTo(c.g, At(v), v) && Len(At(v)) == 0 && Price(c.g, Ids(c.g.n), At(v)) == v;
  }

  /** A block that has stored a label is at a vertex whose label fell, so not at vertex 0. */
  lemma StoredFell(c: Config, s: State, b: nat)
    requires ValidConfig(c) && Inv(c, s) && b < |c.rep| && Stored(s.workers[b])
    ensures Owns(c.blocks, b, s.workers[b].u) && Fell(c, s, b, s.workers[b].u) && s.workers[b].u > 0
  {
    assert ValidWorker(c, b, s.workers[b]) && WorkerOk(c, s, b);
    BaseBelowId(c, s, s.workers[b].u);
  }

  lemma WordMarked(c: Config, s: State, a: Action, b: nat, v: nat)
    requires ValidConfig(c) && Inv(c, s) && Enabled(c, s, a) && Typed(c, Apply(c, s, a)) && a.StoreWord? && WordsFresh(c, s)
    requires Owns(c.blocks, b, v) && b < |c.rep| && v < c.g.n
    ensures Marked(c, Apply(c, s, a), b, v) <==> Marked(c, s, b, v) || (c.part[b] == c.part[a.b] && v == s.workers[a.b].u)
  {
    var w := s.workers[a.b];
    if c.part[b] == c.part[a.b] && v / 32 == w.u / 32 {
      OrBits(w.word, Mask(w.u % 32), v % 32);
      MaskBits(w.u % 32, v % 32);
    }
  }

  /** A store of a word takes exactly its own vertex past the mark. */
  lemma StoredPasses(c: Config, s: State, a: Action, b: nat, v: nat)
    requires ValidConfig(c) && Typed(c, s) && Enabled(c, s, a) && Typed(c, Apply(c, s, a)) && a.StoreWord?
    requires Owns(c.blocks, b, v) && b < |c.rep| && Owns(c.blocks, a.b, s.workers[a.b].u)
    ensures v < Apply(c, s, a).workers[b].u <==> v < s.workers[b].u || v == s.workers[a.b].u
  {
  }

  /** Any other step leaves a block where it is, or takes it past a vertex whose label is not stored. */
  lemma OthersMove(c: Config, s: State, a: Action, b: nat)
    requires ValidConfig(c) && Typed(c, s) && Enabled(c, s, a) && Typed(c, Apply(c, s, a)) && !a.StoreWord? && b < |c.rep|
    ensures Apply(c, s, a).workers[b].u == s.workers[b].u
      || (a == ReadNext(b) && !Stored(s.workers[b]) && Apply(c, s, a).workers[b].u == s.workers[b].u + 1)
  {
  }

  /** Any other step passes only vertices whose labels stay. */
  lemma OthersPass(c: Config, s: State, a: Action, b: nat, v: nat)
    requires ValidConfig(c) && Inv(c, s) && Enabled(c, s, a) && Typed(c, Apply(c, s, a)) && !a.StoreWord?
    requires Owns(c.blocks, b, v) && b < |c.rep| && v < c.g.n
    ensures Fell(c, Apply(c, s, a), b, v) && v < Apply(c, s, a).workers[b].u <==> Fell(c, s, b, v) && v < s.workers[b].u
  {
    FellKept(c, s, a, b, v);
    OthersMove(c, s, a, b);
    if v == s.workers[b].u && !Stored(s.workers[b]) {
      assert VertexOk(c, s, b, v, c.rep[b]);
      assert !Fell(c, s, b, v);
    }
  }

  lemma StepMarkOk(c: Config, s: State, a: Action, b: nat, v: nat)
    requires ValidConfig(c) && Inv(c, s) && Enabled(c, s, a) && Typed(c, Apply(c, s, a)) && WordsFresh(c, s)
    requires Owns(c.blocks, b, v) && b < |c.rep| && v < c.g.n && MarkOk(c, s, b, v)
    ensures MarkOk(c, Apply(c, s, a), b, v)
  {
    var t := Apply(c, s, a);
    FellKept(c, s, a, b, v);
    if a.StoreWord? {
      WordMarked(c, s, a, b, v);
      StoredFell(c, s, a.b);
      StoredPasses(c, s, a, b, v);
    } else {
      assert Marked(c, t, b, v) <==> Marked(c, s, b, v);
      OthersPass(c, s, a, b, v);
    }
  }

  lemma StepFresh(c: Config, s: State, a: Action, b: nat)
    requires ValidConfig(c) && Inv(c, s) && Enabled(c, s, a) && Typed(c, Apply(c, s, a)) && WordsFresh(c, s)
    requires !Clash(c.blocks, c.part) && b < |c.rep| && Apply(c, s, a).workers[b].pc.Merge?
    ensures var t := Apply(c, s, a); t.workers[b].u < c.g.n && t.workers[b].word == t.marks[c.part[b]][t.workers[b].u / 32]
  {
    if a.StoreWord? && a.b != b {
      StoredFell(c, s, a.b);
      StoredFell(c, s, b);
      assert !Meet(c.blocks, c.part, a.b, b, s.workers[a.b].u, s.workers[b].u);
    }
  }

  lemma StepExact(c: Config, s: State, a: Action)
    requires ValidConfig(c) && Inv(c, s) && Enabled(c, s, a) && !Clash(c.blocks, c.part)
    requires MarksExact(c, s) && WordsFresh(c, s)
    ensures Typed(c, Apply(c, s, a)) && MarksExact(c, Apply(c, s, a)) && WordsFresh(c, Apply(c, s, a))
  {
    StepTyped(c, s, a);
    forall b: nat, v: nat | Owns(c.blocks, b, v) && b < |c.rep| && v < c.g.n
      ensures MarkOk(c, Apply(c, s, a), b, v)
    {
      StepMarkOk(c, s, a, b, v);
    }
    forall b: nat | b < |c.rep| && Apply(c, s, a).workers[b].pc.Merge?
      ensures Apply(c, s, a).workers[b].u < c.g.n
      ensures Apply(c, s, a).workers[b].word == Apply(c, s, a).marks[c.part[b]][Apply(c, s, a).workers[b].u / 32]
    {
      StepFresh(c, s, a, b);
    }
  }

  lemma BetweenExact(c: Config, s: State)
    requires ValidConfig(c) && Between(c, s)
    ensures MarksExact(c, s) && WordsFresh(c, s)
  {
    forall b: nat, v: nat | Owns(c.blocks, b, v) && b < |c.rep| && v < c.g.n
      ensures MarkOk(c, s, b, v)
    {
      ZeroHasNoBit(v % 32);
      assert s.vals[c.rep[b]] == s.base;
    }
    forall b: nat | b < |c.rep|
      ensures s.workers[b].pc.Head?
    {
      assert s.workers[b] == Fresh(c, b);
    }
  }

  lemma NextExact(c: Config, s: State, t: State)
    requires ValidConfig(c) && Inv(c, s) && Next(c, s, t) && !Clash(c.blocks, c.part)
    requires MarksExact(c, s) && WordsFresh(c, s)
    ensures Typed(c, t) && MarksExact(c, t) && WordsFresh(c, t)
  {
    if RoundOver(s) && t == EndRound(c, s) {
      EndRoundBetween(c, s);
      BetweenExact(c, t);
    } else {
      var a :| Enabled(c, s, a) && t == Apply(c, s, a);
      StepExact(c, s, a);
    }
  }

  lemma RunExact(c: Config, tr: seq<State>, i: nat)
    requires ValidConfig(c) && Run(c, tr) && i < |tr| && !Clash(c.blocks, c.part)
    ensures Inv(c, tr[i]) && MarksExact(c, tr[i]) && WordsFresh(c, tr[i])
  {
    InitialInv(c);
    BetweenExact(c, Initial(c));
    for j := 0 to i
      invariant Inv(c, tr[j]) && MarksExact(c, tr[j]) && WordsFresh(c, tr[j])
    {
      assert Steps(c, tr[j], tr[j + 1]);
      NextExact(c, tr[j], tr[j + 1]);
      NextInv(c, tr[j], tr[j + 1]);
    }
  }

  /** In every run the reply at a barrier has exactly the bits of the labels that fell, unless two blocks of a
      partition share a word. */
  lemma NoClashIsExact(c: Config)
    requires ValidConfig(c) && !Clash(c.blocks, c.part)
    ensures BitsExact(c)
  {
    forall tr: seq<State>, i: nat | Run(c, tr) && i < |tr| && RoundOver(tr[i])
      ensures Typed(c, tr[i]) && ReplyIsSet(c, tr[i])
    {
      RunExact(c, tr, i);
      forall b: nat, v: nat | Owns(c.blocks, b, v) && b < |c.rep| && v < c.g.n
        ensures Marked(c, tr[i], b, v) <==> Fell(c, tr[i], b, v)
      {
        assert MarkOk(c, tr[i], b, v) && ValidWorker(c, b, tr[i].workers[b]);
      }
    }
  }

  // ---- With a shared word a bit is lost in some run ----

  function WithGraph(c: Config, g: Graph, inn: seq<seq<nat>>): Config {
    Config(g, inn, c.blocks, c.part, c.partitions, c.rep, c.replicas)
  }

  /** Vertex 0 has an edge to `u` and one to `v`. */
  function Star(n: nat, u: nat, v: nat): Graph {
    Graph(n, seq(n, (x: nat) => if x == 0 then [Edge(u, 0), Edge(v, 0)] else []))
  }

  function StarIn(n: nat, u: nat, v: nat): seq<seq<nat>> {
    seq(n, (x: nat) => if x == u || x == v then [0] else [])
  }

  lemma StarValid(c: Config, u: nat, v: nat)
    requires ValidConfig(c) && 0 < u < c.g.n && 0 < v < c.g.n
    ensures ValidConfig(WithGraph(c, Star(c.g.n, u, v), StarIn(c.g.n, u, v)))
  {
    var g := Star(c.g.n, u, v);
    assert HasEdge(g, 0, 0) && g.out[0][0].dst == u && HasEdge(g, 0, 1) && g.out[0][1].dst == v;
    forall y: nat, x: nat | y < g.n
      ensures x in StarIn(c.g.n, u, v)[y] <==> EdgeTo(g, x, y)
    {
      if EdgeTo(g, x, y) {
        var k: nat :| HasEdge(g, x, k) && g.out[x][k].dst == y;
      }
    }
  }

  ghost predicate Reach(c: Config, s: State)
    requires ValidConfig(c)
  {
    exists tr :: Run(c, tr) && tr[|tr| - 1] == s
  }

  lemma ReachInv(c: Config, s: State)
    requires ValidConfig(c) && Reach(c, s)
    ensures Inv(c, s)
  {
    var tr :| Run(c, tr) && tr[|tr| - 1] == s;
    RunInv(c, tr, |tr| - 1);
  }

  lemma ReachStart(c: Config)
    requires ValidConfig(c)
    ensures Reach(c, Initial(c)) && Typed(c, Initial(c))
  {
    InitialInv(c);
    assert Run(c, [Initial(c)]) && [Initial(c)][|[Initial(c)]| - 1] == Initial(c);
  }

  lemma ReachStep(c: Config, s: State, a: Action)
    requires ValidConfig(c) && Reach(c, s) && Typed(c, s) && Enabled(c, s, a)
    ensures Typed(c, Apply(c, s, a)) && Reach(c, Apply(c, s, a))
  {
    StepTyped(c, s, a);
    var tr :| Run(c, tr) && tr[|tr| - 1] == s;
    var longer := tr + [Apply(c, s, a)];
    forall i: nat | i + 1 < |longer|
      ensures Steps(c, longer[i], longer[i + 1])
    {
      if i + 1 < |tr| { assert Steps(c, tr[i], tr[i + 1]); }
    }
    assert Run(c, longer) && longer[|longer| - 1] == Apply(c, s, a);
  }

  /** Only worker `b` differs, and it is at the head of its loop at `at` with the same buffer. */
  ghost predicate Moved(s: State, t: State, b: nat, at: nat) {
    && b < |s.workers| == |t.workers| && t == s.(workers := s.workers[b := t.workers[b]])
    && t.workers[b].pc.Head? && t.workers[b].u == at
  }

  /** A block passes `count` vertices without in-edges. */
  lemma {:induction false} Advance(c: Config, s: State, b: nat, count: nat) returns (t: State)
    requires ValidConfig(c) && Reach(c, s) && Typed(c, s) && s.active
    requires b < |c.rep| && s.workers[b].pc.Head? && s.workers[b].u + count <= Limit(c, b)
    requires forall x: nat :: s.workers[b].u <= x < s.workers[b].u + count && x < |c.inn| ==> c.inn[x] == []
    ensures Reach(c, t) && Typed(c, t) && Moved(s, t, b, s.workers[b].u + count)
    decreases count
  {
    if count == 0 {
      t := s;
      assert s.workers[b := s.workers[b]] == s.workers;
    } else {
      OwnerInGraph(c, b, s.workers[b].u);
      ReachStep(c, s, Take(b));
      var s1 := Apply(c, s, Take(b));
      ReachStep(c, s1, ReadNext(b));
      var s2 := Apply(c, s1, ReadNext(b));
      assert s2.workers[b].pc.Head? && s2.workers[b].u == s.workers[b].u + 1;
      t := Advance(c, s2, b, count - 1);
      assert s2.workers[b := t.workers[b]] == s.workers[b := t.workers[b]];
    }
  }

  /** Only worker `b` and its cell of `v` differ: the label 0 is stored, the bit is not yet set. */
  ghost predicate Lowered(c: Config, s: State, t: State, b: nat, v: nat)
    requires ValidConfig(c) && Typed(c, s) && b < |c.rep| && v < c.g.n
  {
    && |t.workers| == |s.workers|
    && t == s.(workers := s.workers[b := t.workers[b]], vals := Put(s.vals, c.rep[b], v, 0))
    && t.workers[b].pc.Load? && t.workers[b].u == v
  }

  /** A block takes label 0 from vertex 0. */
  lemma TakeZero(c: Config, s: State, b: nat) returns (t: State)
    requires ValidConfig(c) && Reach(c, s) && Typed(c, s) && s.active
    requires b < |c.rep| && s.workers[b].pc.Head? && s.workers[b].u < Limit(c, b) && s.workers[b].u < c.g.n
    requires c.inn[s.workers[b].u] == [0]
    requires s.vals[c.rep[b]][0] == 0 < s.vals[c.rep[b]][s.workers[b].u]
    ensures Reach(c, t) && Typed(c, t) && Lowered(c, s, t, b, s.workers[b].u)
  {
    ReachStep(c, s, Take(b));
    var s1 := Apply(c, s, Take(b));
    ReachStep(c, s1, ReadNext(b));
    var s2 := Apply(c, s1, ReadNext(b));
    assert s2.workers[b].best == 0 && s2.workers[b].i == 1;
    ReachStep(c, s2, ReadNext(b));
    var s3 := Apply(c, s2, ReadNext(b));
    ReachStep(c, s3, Store(b));
    t := Apply(c, s3, Store(b));
    assert s3.vals == s.vals && s3.workers[b := t.workers[b]] == s.workers[b := t.workers[b]];
  }

  function Loading(w: Worker, word: nat): Worker { w.(pc := Merge, word := word) }

  lemma LoadBoth(c: Config, s: State, a: nat, b: nat) returns (t: State)
    requires ValidConfig(c) && Reach(c, s) && Typed(c, s) && s.active && a < |c.rep| && b < |c.rep| && a != b
    requires c.part[a] == c.part[b] && s.workers[a].pc.Load? && s.workers[b].pc.Load?
    requires s.workers[a].u / 32 == s.workers[b].u / 32 < WordCount(c.g.n) && s.marks[c.part[a]][s.workers[a].u / 32] == 0
    ensures Reach(c, t) && Typed(c, t)
    ensures t == s.(workers := s.workers[a := Loading(s.workers[a], 0)][b := Loading(s.workers[b], 0)])
  {
    ReachStep(c, s, LoadWord(a));
    var s1 := Apply(c, s, LoadWord(a));
    ReachStep(c, s1, LoadWord(b));
    t := Apply(c, s1, LoadWord(b));
  }

  lemma StoreOne(c: Config, s: State, b: nat) returns (t: State)
    requires ValidConfig(c) && Reach(c, s) && Typed(c, s) && s.active && b < |c.rep|
    requires s.workers[b].pc.Merge? && s.workers[b].word == 0 && s.workers[b].u / 32 < WordCount(c.g.n)
    ensures Reach(c, t) && Typed(c, t) && t.active && Moved(s.(marks := t.marks), t, b, s.workers[b].u + 1)
    ensures |t.marks| == |s.marks| && t.marks[c.part[b]][s.workers[b].u / 32] == Or(0, Mask(s.workers[b].u % 32))
  {
    ReachStep(c, s, StoreWord(b));
    t := Apply(c, s, StoreWord(b));
  }

  lemma OneBit(i: nat, j: nat)
    ensures Bit(Or(0, Mask(j)), i) <==> i == j
  {
    OrBits(0, Mask(j), i);
    ZeroHasNoBit(i);
    MaskBits(j, i);
  }

  /** Two blocks have loaded the empty word: the second store takes the first one's bit away. */
  lemma StoreBoth(c: Config, s: State, a: nat, b: nat) returns (t: State)
    requires ValidConfig(c) && Reach(c, s) && Typed(c, s) && s.active && a < |c.rep| && b < |c.rep| && a != b
    requires c.part[a] == c.part[b] && s.workers[a].pc.Merge? && s.workers[b].pc.Merge?
    requires s.workers[a].word == 0 && s.workers[b].word == 0
    requires s.workers[a].u / 32 == s.workers[b].u / 32 < WordCount(c.g.n) && s.workers[a].u % 32 != s.workers[b].u % 32
    ensures Reach(c, t) && Typed(c, t) && !Bit(t.marks[c.part[a]][s.workers[a].u / 32], s.workers[a].u % 32)
    ensures t.vals == s.vals && t.base == s.base && t.active && |t.workers| == |s.workers|
    ensures t.workers == s.workers[a := t.workers[a]][b := t.workers[b]]
    ensures t.workers[a].pc.Head? && t.workers[a].u == s.workers[a].u + 1
    ensures t.workers[b].pc.Head? && t.workers[b].u == s.workers[b].u + 1
  {
    var s1 := StoreOne(c, s, a);
    t := StoreOne(c, s1, b);
    OneBit(s.workers[a].u % 32, s.workers[b].u % 32);
  }

  /** Both blocks load the word before either stores it: the bit of the first is lost. */
  lemma LoseBit(c: Config, s: State, a: nat, b: nat) returns (t: State)
    requires ValidConfig(c) && Reach(c, s) && Typed(c, s) && s.active && a < |c.rep| && b < |c.rep| && a != b
    requires c.part[a] == c.part[b] && s.workers[a].pc.Load? && s.workers[b].pc.Load?
    requires s.workers[a].u / 32 == s.workers[b].u / 32 < WordCount(c.g.n) && s.workers[a].u % 32 != s.workers[b].u % 32
    requires s.marks[c.part[a]][s.workers[a].u / 32] == 0
    ensures Reach(c, t) && Typed(c, t) && !Bit(t.marks[c.part[a]][s.workers[a].u / 32], s.workers[a].u % 32)
    ensures t.vals == s.vals && t.base == s.base && t.active && |t.workers| == |s.workers|
    ensures t.workers == s.workers[a := t.workers[a]][b := t.workers[b]]
    ensures t.workers[a].pc.Head? && t.workers[a].u == s.workers[a].u + 1
    ensures t.workers[b].pc.Head? && t.workers[b].u == s.workers[b].u + 1
  {
    var s1 := LoadBoth(c, s, a, b);
    t := StoreBoth(c, s1, a, b);
    assert s1.workers[a := t.workers[a]][b := t.workers[b]] == s.workers[a := t.workers[a]][b := t.workers[b]];
  }

  // ---- The rest of the round ----

  /** Nothing the block has still to do can change a label. */
  ghost predicate Idle(c: Config, b: nat, w: Worker)
    requires ValidConfig(c) && b < |c.rep|
  {
    && (w.pc.Head? || w.pc.Done? || (w.pc.Read? && w.best == w.val))
    && forall x: nat :: w.u <= x < Limit(c, b) && x < |c.inn| ==> c.inn[x] == []
  }

  ghost predicate AllIdle(c: Config, s: State)
    requires ValidConfig(c) && Typed(c, s)
  {
    forall b: nat :: b < |c.rep| ==> Idle(c, b, s.workers[b])
  }

  lemma IdleStep(c: Config, s: State, a: Action)
    requires ValidConfig(c) && Typed(c, s) && AllIdle(c, s) && Enabled(c, s, a) && Typed(c, Apply(c, s, a))
    ensures AllIdle(c, Apply(c, s, a)) && Apply(c, s, a).marks == s.marks && Apply(c, s, a).active && !a.Store?
  {
    var t := Apply(c, s, a);
    if !a.Deliver? { assert Idle(c, a.b, s.workers[a.b]); }
    forall b: nat | b < |c.rep|
      ensures Idle(c, b, t.workers[b])
    {
      assert Idle(c, b, s.workers[b]) && ValidWorker(c, b, s.workers[b]);
    }
  }

  lemma SomeEnabled(c: Config, s: State) returns (a: Action)
    requires ValidConfig(c) && Typed(c, s) && s.active && AllIdle(c, s) && !RoundOver(s)
    ensures Enabled(c, s, a)
  {
    if b: nat :| b < |c.rep| && !s.workers[b].pc.Done? {
      assert Idle(c, b, s.workers[b]) && ValidWorker(c, b, s.workers[b]);
      a := if s.workers[b].pc.Read? then ReadNext(b) else if s.workers[b].u < Limit(c, b) then Take(b) else Send(b);
    } else {
      var r: nat :| r < c.replicas && s.net[r] != multiset{};
      var m :| m in s.net[r];
      a := Deliver(r, m);
    }
  }

  /** The round runs to its barrier without touching a bitmap. */
  lemma {:induction false} Finish(c: Config, s: State, b: nat, v: nat) returns (t: State)
    requires ValidConfig(c) && Reach(c, s) && Typed(c, s) && s.active && AllIdle(c, s) && Fell(c, s, b, v)
    ensures Reach(c, t) && Typed(c, t) && RoundOver(t) && t.marks == s.marks && Fell(c, t, b, v)
    decreases Sum(AllLeft(c, s)), Sum(Traffic(s))
  {
    if RoundOver(s) {
      t := s;
    } else {
      var a := SomeEnabled(c, s);
      ReachInv(c, s);
      ReachStep(c, s, a);
      IdleStep(c, s, a);
      FellKept(c, s, a, b, v);
      StepShrinks(c, s, a);
      t := Finish(c, Apply(c, s, a), b, v);
    }
  }

  // ---- The condition is exact ----

  function StarConfig(c: Config, u: nat, v: nat): Config {
    WithGraph(c, Star(c.g.n, u, v), StarIn(c.g.n, u, v))
  }

  /** Only `u` and `v` have in-edges, and a block has at most one of them. */
  lemma ElsewhereNoEdges(c: Config, a: nat, b: nat, u: nat, v: nat, q: nat, x: nat)
    requires ValidConfig(c) && Meet(c.blocks, c.part, a, b, u, v) && Owns(c.blocks, q, x)
    requires (q == a ==> x != u) && (q == b ==> x != v)
    ensures x < c.g.n && StarIn(c.g.n, u, v)[x] == []
  {
    assert Owns(c.blocks, a, u) && Owns(c.blocks, b, v);
  }

  lemma NoEdgesFrom(c: Config, a: nat, b: nat, u: nat, v: nat, q: nat, from: nat, to: nat)
    requires ValidConfig(c) && Meet(c.blocks, c.part, a, b, u, v) && q < |c.blocks.start|
    requires c.blocks.start[q] <= from && to <= Limit(c, q)
    requires (q == a ==> !(from <= u < to)) && (q == b ==> !(from <= v < to))
    ensures forall x: nat :: from <= x < to && x < c.g.n ==> StarIn(c.g.n, u, v)[x] == []
  {
    forall x: nat | from <= x < to && x < c.g.n
      ensures StarIn(c.g.n, u, v)[x] == []
    {
      assert Owns(c.blocks, q, x);
      ElsewhereNoEdges(c, a, b, u, v, q, x);
    }
  }

  /** One block comes to its vertex with an in-edge and stores label 0. */
  lemma ComeTo(c: Config, s: State, q: nat, x: nat) returns (t: State)
    requires ValidConfig(c) && Reach(c, s) && Typed(c, s) && s.active && q < |c.rep| && s.workers[q] == Fresh(c, q)
    requires Owns(c.blocks, q, x) && x < c.g.n && c.inn[x] == [0]
    requires forall y: nat :: c.blocks.start[q] <= y < x && y < |c.inn| ==> c.inn[y] == []
    requires s.vals[c.rep[q]][0] == 0 < s.vals[c.rep[q]][x]
    ensures Reach(c, t) && Typed(c, t) && Lowered(c, s, t, q, x)
  {
    var s1 := Advance(c, s, q, x - c.blocks.start[q]);
    t := TakeZero(c, s1, q);
    assert s1.workers[q := t.workers[q]] == s.workers[q := t.workers[q]];
  }

  /** Both blocks have stored label 0 and are about to load the word; everybody else is fresh. */
  lemma BothLowered(c: Config, a: nat, b: nat, u: nat, v: nat) returns (t: State)
    requires ValidConfig(c) && Meet(c.blocks, c.part, a, b, u, v)
    requires ValidConfig(StarConfig(c, u, v))
    ensures Reach(StarConfig(c, u, v), t) && Typed(StarConfig(c, u, v), t) && t.active && t.marks == NoMarks(c)
    ensures t.base == Ids(c.g.n) && t.vals[c.rep[a]][u] == 0
    ensures forall q: nat :: q < |c.rep| && q != a && q != b ==> t.workers[q] == Fresh(c, q)
    ensures t.workers[a].pc.Load? && t.workers[a].u == u && t.workers[b].pc.Load? && t.workers[b].u == v
  {
    var d := StarConfig(c, u, v);
    ReachStart(d);
    var s := Initial(d);
    forall q: nat | q < |c.rep|
      ensures s.workers[q] == Fresh(c, q)
    {
    }
    NoEdgesFrom(c, a, b, u, v, a, c.blocks.start[a], u);
    var s1 := ComeTo(d, s, a, u);
    NoEdgesFrom(c, a, b, u, v, b, c.blocks.start[b], v);
    assert u != v;
    t := ComeTo(d, s1, b, v);
  }

  lemma RestIdle(c: Config, s: State, a: nat, b: nat, u: nat, v: nat)
    requires ValidConfig(c) && Meet(c.blocks, c.part, a, b, u, v)
    requires ValidConfig(StarConfig(c, u, v)) && Typed(StarConfig(c, u, v), s)
    requires forall q: nat :: q < |c.rep| && q != a && q != b ==> s.workers[q] == Fresh(c, q)
    requires s.workers[a].pc.Head? && s.workers[a].u == u + 1 && s.workers[b].pc.Head? && s.workers[b].u == v + 1
    ensures AllIdle(StarConfig(c, u, v), s)
  {
    var d := StarConfig(c, u, v);
    forall q: nat | q < |d.rep|
      ensures Idle(d, q, s.workers[q])
    {
      assert ValidWorker(d, q, s.workers[q]);
      NoEdgesFrom(c, a, b, u, v, q, s.workers[q].u, Limit(c, q));
    }
  }

  /** With a shared word there is a graph and a run in which the bit of a label that fell is missing at the barrier. */
  lemma ClashLosesBit(c: Config, a: nat, b: nat, u: nat, v: nat) returns (t: State)
    requires ValidConfig(c) && Meet(c.blocks, c.part, a, b, u, v)
    ensures var d := StarConfig(c, u, v);
      && ValidConfig(d) && Reach(d, t) && Typed(d, t) && RoundOver(t) && u < d.g.n
      && Fell(d, t, a, u) && !Marked(d, t, a, u)
  {
    var d := StarConfig(c, u, v);
    StarValid(c, u, v);
    var s := BothLowered(c, a, b, u, v);
    assert u % 32 != v % 32;
    var s1 := LoseBit(d, s, a, b);
    RestIdle(c, s1, a, b, u, v);
    assert Fell(d, s1, a, u);
    t := Finish(d, s1, a, u);
  }

  /** Three vertices on one host, one partition cut into the blocks `0, 1` and `2`, no edges yet. */
  function Small(): Config {
    Config(Graph(3, [[], [], []]), [[], [], []], Parts([0, 2], [2, 1]), [0, 0], 1, [0, 0], 1)
  }

  lemma SmallValid()
    ensures ValidConfig(Small())
  {
    var c := Small();
    forall u: nat, x: nat | u < 3
      ensures x in c.inn[u] <==> EdgeTo(c.g, x, u)
    {
      assert forall k: nat :: !HasEdge(c.g, x, k);
    }
    forall v: nat | v < 3
      ensures Owned(c.blocks, v)
    {
      assert Owns(c.blocks, if v < 2 then 0 else 1, v);
    }
  }

  /** A run that loses a bit: 0 has edges to 1 and 2, both labels fall in the first round, and the bit of 1 is not in
      the reply. */
  lemma LossyRun() returns (tr: seq<State>)
    ensures var d := StarConfig(Small(), 1, 2);
      && ValidConfig(d) && Run(d, tr) && RoundOver(tr[|tr| - 1]) && Typed(d, tr[|tr| - 1])
      && Fell(d, tr[|tr| - 1], 0, 1) && !Marked(d, tr[|tr| - 1], 0, 1)
  {
    SmallValid();
    var d := StarConfig(Small(), 1, 2);
    assert Meet(Small().blocks, Small().part, 0, 1, 1, 2);
    var t := ClashLosesBit(Small(), 0, 1, 1, 2);
    tr :| Run(d, tr) && tr[|tr| - 1] == t;
  }

  /** The reply is exact on every graph and in every run, exactly when no two blocks of a partition share a word. */
  lemma ExactIff(c: Config)
    requires ValidConfig(c)
    ensures (forall g: Graph, inn: seq<seq<nat>> :: g.n == c.g.n && ValidConfig(WithGraph(c, g, inn)) ==> BitsExact(WithGraph(c, g, inn)))
      <==> !Clash(c.blocks, c.part)
  {
    if Clash(c.blocks, c.part) {
      var a: nat, b: nat, u: nat, v: nat :| Meet(c.blocks, c.part, a, b, u, v);
      var t := ClashLosesBit(c, a, b, u, v);
      var d := StarConfig(c, u, v);
      var tr :| Run(d, tr) && tr[|tr| - 1] == t;
      assert !ReplyIsSet(d, tr[|tr| - 1]);
      assert !BitsExact(d);
    } else {
      forall g: Graph, inn: seq<seq<nat>> | g.n == c.g.n && ValidConfig(WithGraph(c, g, inn))
        ensures BitsExact(WithGraph(c, g, inn))
      {
        NoClashIsExact(WithGraph(c, g, inn));
      }
    }
  }

  // ---- For the blocks that `Calc` cuts ----

  lemma WordsSplit(u: nat, m: nat, v: nat)
    requires u < m <= v
    ensures m % 32 == 0 ==> u / 32 != v / 32
  {
  }

  lemma MultipleOfWord(m: nat)
    requires m % 65536 == 0
    ensures m % 32 == 0
  {
    assert m == 65536 * (m / 65536) == 32 * (2048 * (m / 65536));
  }

  lemma MeetIsUnaligned(blocks: Parts, part: seq<nat>, parts: Parts, n: nat, a: nat, b: nat, u: nat, v: nat)
    requires Covers(blocks, n) && |part| == |blocks.start| && |parts.start| == |parts.size|
    requires forall b: nat, v: nat :: Owns(blocks, b, v) ==> Owns(parts, part[b], v)
    requires Regular(blocks, part, parts) && Meet(blocks, part, a, b, u, v) && u <= v
    ensures part[b] < |parts.start| && parts.start[part[b]] % 32 != 0 && parts.size[part[b]] > 65536
  {
    var p := part[b];
    assert RegularBlock(blocks, part, parts, b);
    assert Owns(parts, p, u) && Owns(parts, p, v);
    assert !Owns(blocks, b, u);
    MultipleOfWord(blocks.start[b] - parts.start[p]);
    WordsSplit(u, blocks.start[b], v);
  }

  lemma UnalignedMeet(blocks: Parts, part: seq<nat>, parts: Parts, n: nat, p: nat)
    requires Covers(parts, n) && Covers(blocks, n) && |part| == |blocks.start|
    requires forall b: nat, v: nat :: Owns(blocks, b, v) ==> Owns(parts, part[b], v)
    requires Regular(blocks, part, parts)
    requires p < |parts.start| && parts.start[p] % 32 != 0 && parts.size[p] > 65536
    ensures Clash(blocks, part)
  {
    var u: nat, v: nat := parts.start[p] + 65536 - 1, parts.start[p] + 65536;
    assert Owns(parts, p, u) && Owns(parts, p, v);
    assert Owned(blocks, u) && Owned(blocks, v);
    var a: nat :| Owns(blocks, a, u);
    var b: nat :| Owns(blocks, b, v);
    assert Owns(parts, part[a], u) && Owns(parts, part[b], v);
    assert RegularBlock(blocks, part, parts, a) && RegularBlock(blocks, part, parts, b);
    assert Meet(blocks, part, a, b, u, v);
  }

  /** With blocks of 65536 vertices: exactly when every partition starts at a multiple of 32 or has one block. */
  lemma CutIsExact(blocks: Parts, part: seq<nat>, parts: Parts, n: nat)
    requires Covers(parts, n) && Covers(blocks, n) && |part| == |blocks.start|
    requires forall b: nat, v: nat :: Owns(blocks, b, v) ==> Owns(parts, part[b], v)
    requires Regular(blocks, part, parts)
    ensures !Clash(blocks, part) <==>
      forall p: nat :: p < |parts.start| ==> parts.start[p] % 32 == 0 || parts.size[p] <= 65536
  {
    if Clash(blocks, part) {
      var a: nat, b: nat, u: nat, v: nat :| Meet(blocks, part, a, b, u, v);
      if u < v { MeetIsUnaligned(blocks, part, parts, n, a, b, u, v); } else { MeetIsUnaligned(blocks, part, parts, n, b, a, v, u); }
    } else {
      forall p: nat | p < |parts.start| && parts.size[p] > 65536
        ensures parts.start[p] % 32 == 0
      {
        if parts.start[p] % 32 != 0 { UnalignedMeet(blocks, part, parts, n, p); }
      }
    }
  }
}
