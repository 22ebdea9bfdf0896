/** Connected components in pull mode: every round every vertex takes the smallest label among itself and its
    in-neighbours, in place, while concurrent blocks read the labels it is changing. Blocks of one partition
    share a reply bitmap and set its bits by an unsynchronised load and store. */
module PullCc {
  import opened Graphs
  import opened Partitions
  import opened Bitmaps

  datatype Pair = Pair(v: nat, y: nat)

  /** `inn[u]` lists `u`'s in-neighbours. The blocks are contiguous slices of the partitions; block `b` belongs
      to partition `part[b]` and works on replica `rep[b]`. */
  datatype Config = Config(g: Graph, inn: seq<seq<nat>>, blocks: Parts, part: seq<nat>, partitions: nat,
                           rep: seq<nat>, replicas: nat)

  /** The in-lists are those of the graph. */
  ghost predicate InLists(g: Graph, inn: seq<seq<nat>>) {
    && |inn| == g.n
    && forall u: nat, x: nat :: u < g.n ==> (x in inn[u] <==> EdgeTo(g, x, u))
  }

  ghost predicate ValidConfig(c: Config) {
    && WellFormed(c.g) && Unweighted(c.g) && InLists(c.g, c.inn)
    && Covers(c.blocks, c.g.n)
    && |c.part| == |c.rep| == |c.blocks.start|
    && (forall b :: 0 <= b < |c.part| ==> c.part[b] < c.partitions)
    && (forall b :: 0 <= b < |c.rep| ==> c.rep[b] < c.replicas)
  }

  function Ids(n: nat): (s: seq<nat>)
    ensures |s| == n && forall u :: 0 <= u < n ==> s[u] == u
  {
    seq(n, u requires 0 <= u => u)
  }

  function WordCount(n: nat): nat { n / 32 + 1 }

  /** Where a block is: about to take its next vertex or, past the last one, to send its updates; reading
      in-neighbour `i`; about to store the smaller label; about to load the bitmap word; about to store it; done. */
  datatype Pc = Head | Read | Write | Load | Merge | Done

  datatype Worker = Worker(pc: Pc, u: nat, val: nat, best: nat, i: nat, word: nat, data: seq<Pair>)

  /** `marks[p]` is partition `p`'s reply bitmap. `active` says whether the coordinator goes on.
      `base` and `round` record history only. */
  datatype State = State(vals: seq<seq<nat>>, workers: seq<Worker>, net: seq<multiset<Pair>>,
                         marks: seq<seq<nat>>, active: bool, base: seq<nat>, round: nat)

  function Fresh(c: Config, b: nat): Worker
    requires b < |c.blocks.start|
  {
    Worker(Head, c.blocks.start[b], 0, 0, 0, 0, [])
  }

  function AllFresh(c: Config): seq<Worker> {
    seq(|c.blocks.start|, b requires 0 <= b < |c.blocks.start| => Fresh(c, b))
  }

  function NoMarks(c: Config): seq<seq<nat>> {
    seq(c.partitions, _ => seq(WordCount(c.g.n), _ => 0))
  }

  /** `Load` stores every vertex's own id and activates it. */
  function Initial(c: Config): State {
    State(seq(c.replicas, _ => Ids(c.g.n)), AllFresh(c), seq(c.replicas, _ => multiset{}), NoMarks(c),
          c.g.n > 0, Ids(c.g.n), 0)
  }

  function Limit(c: Config, b: nat): nat
    requires ValidConfig(c) && b < |c.rep|
  {
    c.blocks.start[b] + c.blocks.size[b]
  }

  predicate Inside(w: Worker) { w.pc.Read? || w.pc.Write? || w.pc.Load? || w.pc.Merge? }

  /** The store of `w.u`'s new label is behind the worker. */
  predicate Stored(w: Worker) { w.pc.Load? || w.pc.Merge? }

  ghost predicate ValidWorker(c: Config, b: nat, w: Worker)
    requires ValidConfig(c) && b < |c.rep|
  {
    && c.blocks.start[b] <= w.u <= Limit(c, b)
    && (Inside(w) ==> w.u < c.g.n && Owns(c.blocks, b, w.u) && w.i <= |c.inn[w.u]|)
    && (w.pc.Done? ==> w.u == Limit(c, b))
    && (forall m :: m in w.data ==> Owns(c.blocks, b, m.v) && m.v < c.g.n && m.v < w.u)
  }

  ghost predicate Typed(c: Config, s: State)
    requires ValidConfig(c)
  {
    && |s.vals| == |s.net| == c.replicas
    && |s.workers| == |c.rep|
    && |s.base| == c.g.n
    && |s.marks| == c.partitions
    && (forall r :: 0 <= r < c.replicas ==> |s.vals[r]| == c.g.n)
    && (forall b :: 0 <= b < |c.rep| ==> ValidWorker(c, b, s.workers[b]))
    && (forall r, m :: 0 <= r < c.replicas && m in s.net[r] ==> m.v < c.g.n)
    && (forall p :: 0 <= p < c.partitions ==> |s.marks[p]| == WordCount(c.g.n))
  }

  datatype Action =
    | Take(b: nat)
    | ReadNext(b: nat)
    | Store(b: nat)
    | LoadWord(b: nat)
    | StoreWord(b: nat)
    | Send(b: nat)
    | Deliver(r: nat, m: Pair)

  predicate Enabled(c: Config, s: State, a: Action)
    requires ValidConfig(c) && Typed(c, s)
  {
    s.active &&
    match a
    case Take(b) => b < |c.rep| && s.workers[b].pc.Head? && s.workers[b].u < Limit(c, b)
    case ReadNext(b) => b < |c.rep| && s.workers[b].pc.Read?
    case Store(b) => b < |c.rep| && s.workers[b].pc.Write?
    case LoadWord(b) => b < |c.rep| && s.workers[b].pc.Load?
    case StoreWord(b) => b < |c.rep| && s.workers[b].pc.Merge?
    case Send(b) => b < |c.rep| && s.workers[b].pc.Head? && s.workers[b].u == Limit(c, b)
    case Deliver(r, m) => r < c.replicas && m in s.net[r]
  }

  /** A plain store to one cell of one replica. */
  function Put(vals: seq<seq<nat>>, r: nat, v: nat, y: nat): seq<seq<nat>>
    requires r < |vals| && v < |vals[r]|
  {
    var row: seq<nat> := vals[r][v := y];
    vals[r := row]
  }

  function Broadcast(net: seq<multiset<Pair>>, from: nat, ms: seq<Pair>): seq<multiset<Pair>> {
    seq(|net|, r requires 0 <= r < |net| => if r == from then net[r] else net[r] + multiset(ms))
  }

  lemma OwnerInGraph(c: Config, b: nat, u: nat)
    requires ValidConfig(c) && b < |c.rep| && c.blocks.start[b] <= u < Limit(c, b)
    ensures Owns(c.blocks, b, u) && u < c.g.n
  {
    assert Owns(c.blocks, b, u);
  }

  function Effect(c: Config, s: State, a: Action): State
    requires ValidConfig(c) && Typed(c, s) && Enabled(c, s, a)
  {
    match a
    case Store(b) =>
      var w := s.workers[b];
      s.(vals := Put(s.vals, c.rep[b], w.u, w.best))
    case StoreWord(b) =>
      var w := s.workers[b];
      var p := c.part[b];
      s.(marks := s.marks[p := s.marks[p][w.u / 32 := Or(w.word, Mask(w.u % 32))]])
    case Send(b) => s.(net := Broadcast(s.net, c.rep[b], s.workers[b].data))
    case Deliver(r, m) =>
      s.(vals := Put(s.vals, r, m.v, m.y), net := s.net[r := s.net[r] - multiset{m}])
    case _ => s
  }

  function After(c: Config, s: State, a: Action): Worker
    requires ValidConfig(c) && Typed(c, s) && Enabled(c, s, a) && !a.Deliver?
  {
    var w := s.workers[a.b];
    match a
    case Take(b) =>
      OwnerInGraph(c, b, w.u);
      var val := s.vals[c.rep[b]][w.u];
      w.(pc := Read, val := val, best := val, i := 0)
    case ReadNext(b) =>
      if w.i < |c.inn[w.u]| then
        assert c.inn[w.u][w.i] in c.inn[w.u];
        var x := s.vals[c.rep[b]][c.inn[w.u][w.i]];
        w.(best := if x < w.best then x else w.best, i := w.i + 1)
      else if w.best < w.val then w.(pc := Write)
      else w.(pc := Head, u := w.u + 1)
    case Store(b) => w.(pc := Load)
    case LoadWord(b) => w.(pc := Merge, word := s.marks[c.part[b]][w.u / 32])
    case StoreWord(b) => w.(pc := Head, u := w.u + 1, data := w.data + [Pair(w.u, w.best)])
    case Send(b) => w.(pc := Done)
  }

  function Apply(c: Config, s: State, a: Action): State
    requires ValidConfig(c) && Typed(c, s) && Enabled(c, s, a)
  {
    var t := Effect(c, s, a);
    if a.Deliver? then t else t.(workers := t.workers[a.b := After(c, s, a)])
  }

  predicate RoundOver(s: State) {
    && s.active
    && (forall b :: 0 <= b < |s.workers| ==> s.workers[b].pc.Done?)
    && (forall r :: 0 <= r < |s.net| ==> s.net[r] == multiset{})
  }

  /** Word `k` of the OR of the replies. */
  function Reply(marks: seq<seq<nat>>, k: nat): nat
    requires forall p :: 0 <= p < |marks| ==> k < |marks[p]|
  {
    if marks == [] then 0 else Or(Reply(marks[..|marks| - 1], k), marks[|marks| - 1][k])
  }

  /** The coordinator's emptiness test: some word is above zero. */
  predicate NonEmpty(marks: seq<seq<nat>>, words: nat)
    requires forall p :: 0 <= p < |marks| ==> |marks[p]| == words
  {
    exists k: nat | k < words :: Reply(marks, k) > 0
  }

  /** The barrier. Whatever was activated, the next round runs on every vertex. */
  function EndRound(c: Config, s: State): State
    requires ValidConfig(c) && Typed(c, s)
  {
    State(s.vals, AllFresh(c), s.net, NoMarks(c), NonEmpty(s.marks, WordCount(c.g.n)),
          if c.replicas == 0 then s.base else s.vals[0], s.round + 1)
  }

  ghost predicate Next(c: Config, s: State, t: State)
    requires ValidConfig(c) && Typed(c, s)
  {
    || (exists a :: Enabled(c, s, a) && t == Apply(c, s, a))
    || (RoundOver(s) && t == EndRound(c, s))
  }

  ghost predicate AtBarrier(c: Config, s: State) {
    s.workers == AllFresh(c) && forall r :: 0 <= r < |s.net| ==> s.net[r] == multiset{}
  }

  ghost predicate Exited(c: Config, s: State) { AtBarrier(c, s) && !s.active }

  // ---- Types ----

  lemma AfterValid(c: Config, s: State, a: Action)
    requires ValidConfig(c) && Typed(c, s) && Enabled(c, s, a) && !a.Deliver?
    ensures ValidWorker(c, a.b, After(c, s, a))
  {
    var w := s.workers[a.b];
    if a.Take? { OwnerInGraph(c, a.b, w.u); }
    if a.StoreWord? {
      assert forall m :: m in w.data + [Pair(w.u, w.best)] ==> m in w.data || m == Pair(w.u, w.best);
    }
  }

  lemma EffectTyped(c: Config, s: State, a: Action)
    requires ValidConfig(c) && Typed(c, s) && Enabled(c, s, a)
    ensures Typed(c, Effect(c, s, a))
  {
    if a.Send? {
      assert forall m :: m in multiset(s.workers[a.b].data) ==> m in s.workers[a.b].data;
    } else if a.Deliver? {
      assert forall m :: m in s.net[a.r] - multiset{a.m} ==> m in s.net[a.r];
    }
  }

  lemma StepTyped(c: Config, s: State, a: Action)
    requires ValidConfig(c) && Typed(c, s) && Enabled(c, s, a)
    ensures Typed(c, Apply(c, s, a))
  {
    EffectTyped(c, s, a);
    if !a.Deliver? { AfterValid(c, s, a); }
  }

  // ---- Ownership: each label is stored once a round, by its owner ----

  /** The owner has stored `v`'s new label, or found that it has none, in this round. */
  ghost predicate Settled(w: Worker, v: nat) {
    v < w.u || (v == w.u && Stored(w))
  }

  ghost function OwnVal(c: Config, s: State, b: nat, v: nat): nat
    requires ValidConfig(c) && Typed(c, s) && b < |c.rep| && v < c.g.n
  {
    s.vals[c.rep[b]][v]
  }

  /** The update is in `b`'s buffer. */
  ghost predicate Buffered(s: State, b: nat, m: Pair)
  {
    b < |s.workers| && !s.workers[b].pc.Done? && m in s.workers[b].data
  }

  ghost predicate OnItsWay(s: State, r: nat, m: Pair)
  {
    r < |s.net| && m in s.net[r]
  }

  /** What holds of vertex `v`, owned by block `b`, on replica `r`. Until the owner settles it, it is unchanged
      everywhere and nothing is in flight. After that the replica agrees with the owner's, or the update is
      buffered, in flight, or about to be buffered. */
  ghost predicate VertexOk(c: Config, s: State, b: nat, v: nat, r: nat)
    requires ValidConfig(c) && Typed(c, s) && b < |c.rep| && v < c.g.n && r < c.replicas
  {
    var w := s.workers[b];
    var latest := Pair(v, OwnVal(c, s, b, v));
    && OwnVal(c, s, b, v) <= s.base[v]
    && (!Settled(w, v) ==> OwnVal(c, s, b, v) == s.base[v])
    && (s.vals[r][v] == OwnVal(c, s, b, v)
        || (s.vals[r][v] == s.base[v]
            && (OnItsWay(s, r, latest)
                || (r != c.rep[b] && (Buffered(s, b, latest) || (v == w.u && Stored(w)))))))
  }

  /** Buffered and travelling updates carry the owner's label, which differs from the old one. */
  ghost predicate UpdateOk(c: Config, s: State, b: nat, m: Pair)
    requires ValidConfig(c) && Typed(c, s) && b < |c.rep|
  {
    Owns(c.blocks, b, m.v) && m.v < c.g.n && m.v < s.workers[b].u && m.y == OwnVal(c, s, b, m.v)
  }

  ghost predicate RegistersOk(c: Config, s: State, b: nat)
    requires ValidConfig(c) && Typed(c, s) && b < |c.rep|
  {
    var w := s.workers[b];
    && (w.pc.Read? || w.pc.Write? ==> w.val == s.base[w.u] && w.best <= w.val)
    && (w.pc.Write? ==> w.best < w.val)
    && (Stored(w) ==> OwnVal(c, s, b, w.u) == w.best < s.base[w.u])
  }

  ghost predicate WorkerOk(c: Config, s: State, b: nat)
    requires ValidConfig(c) && Typed(c, s) && b < |c.rep|
  {
    RegistersOk(c, s, b) && forall m :: m in s.workers[b].data ==> UpdateOk(c, s, b, m)
  }

  ghost predicate VerticesOk(c: Config, s: State)
    requires ValidConfig(c) && Typed(c, s)
  {
    forall b: nat, v: nat, r: nat :: Owns(c.blocks, b, v) && r < c.replicas ==> VertexOk(c, s, b, v, r)
  }

  ghost predicate UpdatesOk(c: Config, s: State)
    requires ValidConfig(c) && Typed(c, s)
  {
    forall r: nat, b: nat, m: Pair :: OnItsWay(s, r, m) && Owns(c.blocks, b, m.v) ==>
      r != c.rep[b] && UpdateOk(c, s, b, m)
  }

  ghost predicate WorkersOk(c: Config, s: State)
    requires ValidConfig(c) && Typed(c, s)
  {
    forall b: nat :: b < |c.rep| ==> WorkerOk(c, s, b)
  }

  ghost predicate Consistent(c: Config, s: State)
    requires ValidConfig(c) && Typed(c, s)
  {
    VerticesOk(c, s) && UpdatesOk(c, s) && WorkersOk(c, s)
  }

  /** A step changes at most one cell: the owner's copy of its current vertex, or a replica's copy of an update. */
  lemma CellKept(c: Config, s: State, a: Action, r: nat, v: nat)
    requires ValidConfig(c) && Typed(c, s) && Enabled(c, s, a) && Typed(c, Apply(c, s, a))
    requires r < c.replicas && v < c.g.n
    requires !(a.Store? && r == c.rep[a.b] && v == s.workers[a.b].u)
    requires !(a.Deliver? && r == a.r && v == a.m.v)
    ensures Apply(c, s, a).vals[r][v] == s.vals[r][v]
  {
  }

  /** The owner's copy changes only by its own store. */
  lemma OwnKept(c: Config, s: State, a: Action, b: nat, v: nat)
    requires ValidConfig(c) && Typed(c, s) && Enabled(c, s, a) && Typed(c, Apply(c, s, a)) && Consistent(c, s)
    requires Owns(c.blocks, b, v) && v < c.g.n
    requires !(a == Store(b) && v == s.workers[b].u)
    ensures OwnVal(c, Apply(c, s, a), b, v) == OwnVal(c, s, b, v)
  {
    if a.Deliver? {
      if a.m.v == v { assert OnItsWay(s, a.r, a.m); }
    }
    CellKept(c, s, a, c.rep[b], v);
  }

  lemma StoreVertexOk(c: Config, s: State, a: Action, r: nat)
    requires ValidConfig(c) && Typed(c, s) && Enabled(c, s, a) && Typed(c, Apply(c, s, a)) && Consistent(c, s)
    requires a.Store? && r < c.replicas
    ensures VertexOk(c, Apply(c, s, a), a.b, s.workers[a.b].u, r)
  {
    var v := s.workers[a.b].u;
    assert WorkerOk(c, s, a.b) && VertexOk(c, s, a.b, v, r);
    if r != c.rep[a.b] {
      CellKept(c, s, a, r, v);
      assert !OnItsWay(s, r, Pair(v, s.base[v]));
    }
  }

  /** Until it is applied, an update stays buffered, in flight, or about to be buffered. */
  lemma BufferedKept(c: Config, s: State, a: Action, b: nat, m: Pair, r: nat)
    requires ValidConfig(c) && Typed(c, s) && Enabled(c, s, a) && Typed(c, Apply(c, s, a))
    requires b < |c.rep| && r < c.replicas && r != c.rep[b] && Buffered(s, b, m)
    ensures Buffered(Apply(c, s, a), b, m) || OnItsWay(Apply(c, s, a), r, m)
  {
  }

  lemma StoredKept(c: Config, s: State, a: Action, b: nat)
    requires ValidConfig(c) && Typed(c, s) && Enabled(c, s, a) && Typed(c, Apply(c, s, a))
    requires b < |c.rep| && WorkerOk(c, s, b) && Stored(s.workers[b])
    ensures var w, t := s.workers[b], Apply(c, s, a);
      Buffered(t, b, Pair(w.u, OwnVal(c, s, b, w.u))) || (w.u == t.workers[b].u && Stored(t.workers[b]))
  {
  }

  lemma WayKept(c: Config, s: State, a: Action, b: nat, v: nat, r: nat)
    requires ValidConfig(c) && Typed(c, s) && Enabled(c, s, a) && Typed(c, Apply(c, s, a))
    requires b < |c.rep| && r < c.replicas && v < c.g.n && WorkerOk(c, s, b)
    requires !(a.Deliver? && r == a.r && v == a.m.v)
    ensures var latest, w, t := Pair(v, OwnVal(c, s, b, v)), s.workers[b], Apply(c, s, a);
      && (OnItsWay(s, r, latest) ==> OnItsWay(t, r, latest))
      && (r != c.rep[b] && Buffered(s, b, latest) ==> Buffered(t, b, latest) || OnItsWay(t, r, latest))
      && (v == w.u && Stored(w) ==> Buffered(t, b, latest) || (v == t.workers[b].u && Stored(t.workers[b])))
  {
    var latest := Pair(v, OwnVal(c, s, b, v));
    if r != c.rep[b] && Buffered(s, b, latest) { BufferedKept(c, s, a, b, latest, r); }
    if v == s.workers[b].u && Stored(s.workers[b]) { StoredKept(c, s, a, b); }
  }

  lemma StepVertexOk(c: Config, s: State, a: Action, b: nat, v: nat, r: nat)
    requires ValidConfig(c) && Typed(c, s) && Enabled(c, s, a) && Typed(c, Apply(c, s, a)) && Consistent(c, s)
    requires Owns(c.blocks, b, v) && r < c.replicas
    ensures v < c.g.n && VertexOk(c, Apply(c, s, a), b, v, r)
  {
    var t := Apply(c, s, a);
    assert VertexOk(c, s, b, v, r);
    if a == Store(b) && v == s.workers[b].u {
      StoreVertexOk(c, s, a, r);
    } else {
      OwnKept(c, s, a, b, v);
      var latest := Pair(v, OwnVal(c, s, b, v));
      if a.Deliver? && r == a.r && v == a.m.v {
        assert OnItsWay(s, r, a.m) && UpdateOk(c, s, b, a.m);
      } else {
        if !(a.Store? && r == c.rep[a.b] && v == s.workers[a.b].u) { CellKept(c, s, a, r, v); }
        WayKept(c, s, a, b, v, r);
      }
    }
  }

  lemma StepUpdates(c: Config, s: State, a: Action)
    requires ValidConfig(c) && Typed(c, s) && Enabled(c, s, a) && Typed(c, Apply(c, s, a)) && Consistent(c, s)
    ensures UpdatesOk(c, Apply(c, s, a))
  {
    var t := Apply(c, s, a);
    forall r: nat, b: nat, m: Pair | OnItsWay(t, r, m) && Owns(c.blocks, b, m.v)
      ensures r != c.rep[b] && UpdateOk(c, t, b, m)
    {
      if OnItsWay(s, r, m) {
        assert UpdateOk(c, s, b, m);
      } else {
        assert a.Send? && m in s.workers[a.b].data && r != c.rep[a.b];
        assert WorkerOk(c, s, a.b) && UpdateOk(c, s, a.b, m) && a.b == b;
      }
      OwnKept(c, s, a, b, m.v);
    }
  }

  lemma OwnRegisters(c: Config, s: State, a: Action)
    requires ValidConfig(c) && Typed(c, s) && Enabled(c, s, a) && Typed(c, Apply(c, s, a)) && !a.Deliver?
    requires RegistersOk(c, s, a.b)
    requires a.Take? ==> s.workers[a.b].u < c.g.n && OwnVal(c, s, a.b, s.workers[a.b].u) == s.base[s.workers[a.b].u]
    ensures RegistersOk(c, Apply(c, s, a), a.b)
  {
  }

  lemma StepRegisters(c: Config, s: State, a: Action, b: nat)
    requires ValidConfig(c) && Typed(c, s) && Enabled(c, s, a) && Typed(c, Apply(c, s, a)) && Consistent(c, s)
    requires b < |c.rep|
    ensures RegistersOk(c, Apply(c, s, a), b)
  {
    var w := s.workers[b];
    assert WorkerOk(c, s, b);
    if !a.Deliver? && a.b == b {
      if a.Take? {
        OwnerInGraph(c, b, w.u);
        assert VertexOk(c, s, b, w.u, c.rep[b]);
      }
      OwnRegisters(c, s, a);
    } else if Stored(w) {
      OwnKept(c, s, a, b, w.u);
    }
  }

  lemma StepBuffer(c: Config, s: State, a: Action, b: nat, m: Pair)
    requires ValidConfig(c) && Typed(c, s) && Enabled(c, s, a) && Typed(c, Apply(c, s, a)) && Consistent(c, s)
    requires b < |c.rep| && m in Apply(c, s, a).workers[b].data
    ensures UpdateOk(c, Apply(c, s, a), b, m)
  {
    assert WorkerOk(c, s, b);
    if m in s.workers[b].data {
      assert UpdateOk(c, s, b, m);
      OwnKept(c, s, a, b, m.v);
    }
  }

  lemma StepWorker(c: Config, s: State, a: Action, b: nat)
    requires ValidConfig(c) && Typed(c, s) && Enabled(c, s, a) && Typed(c, Apply(c, s, a)) && Consistent(c, s)
    requires b < |c.rep|
    ensures WorkerOk(c, Apply(c, s, a), b)
  {
    StepRegisters(c, s, a, b);
    forall m | m in Apply(c, s, a).workers[b].data
      ensures UpdateOk(c, Apply(c, s, a), b, m)
    {
      StepBuffer(c, s, a, b, m);
    }
  }

  lemma StepWorkers(c: Config, s: State, a: Action)
    requires ValidConfig(c) && Typed(c, s) && Enabled(c, s, a) && Typed(c, Apply(c, s, a)) && Consistent(c, s)
    ensures WorkersOk(c, Apply(c, s, a))
  {
    forall b: nat | b < |c.rep|
      ensures WorkerOk(c, Apply(c, s, a), b)
    {
      StepWorker(c, s, a, b);
    }
  }

  lemma StepConsistent(c: Config, s: State, a: Action)
    requires ValidConfig(c) && Typed(c, s) && Enabled(c, s, a) && Typed(c, Apply(c, s, a)) && Consistent(c, s)
    ensures Consistent(c, Apply(c, s, a))
  {
    forall b: nat, v: nat, r: nat | Owns(c.blocks, b, v) && r < c.replicas
      ensures VertexOk(c, Apply(c, s, a), b, v, r)
    {
      StepVertexOk(c, s, a, b, v, r);
    }
    StepUpdates(c, s, a);
    StepWorkers(c, s, a);
  }
}
