/** PageRank on one host: two vertex buffers, a tag per container that says which one is being written, and a
    counter per container that flips the tag when its second partition has finished. Arithmetic is over the
    reals. */
module PageRank {
  /** Vertex `u` has in-neighbours `inn[u]`, with repetition, and out-degree `deg[u]`. Partition `p` runs in
      container `home[p]`; block `b`, the vertices `lists[b]`, belongs to partition `part[b]`. */
  datatype Config = Config(n: nat, inn: seq<seq<nat>>, deg: seq<nat>,
                           lists: seq<seq<nat>>, part: seq<nat>, home: seq<nat>, containers: nat)

  /** The vertices `Load` activates. */
  predicate Active(c: Config, u: nat) { u < c.n && u < |c.deg| && c.deg[u] > 0 }

  ghost predicate InBlock(c: Config, b: nat, u: nat) {
    b < |c.lists| && u in c.lists[b]
  }

  ghost predicate HasBlock(c: Config, p: nat) {
    exists b: nat :: b < |c.part| && c.part[b] == p
  }

  /** `p` and `q` are the two partitions of a container. */
  ghost predicate Pair(c: Config, p: nat, q: nat) {
    p < |c.home| && q < |c.home| && p != q && c.home[p] == c.home[q]
  }

  ghost predicate HasPartner(c: Config, p: nat) {
    exists q: nat :: Pair(c, p, q)
  }

  ghost predicate Occupied(c: Config, k: nat) {
    exists p: nat :: p < |c.home| && c.home[p] == k
  }

  ghost predicate ValidConfig(c: Config) {
    && |c.inn| == |c.deg| == c.n && |c.part| == |c.lists|
    && (forall u: nat, x: nat :: u < c.n && x in c.inn[u] ==> Active(c, x))
    && (forall b :: 0 <= b < |c.part| ==> c.part[b] < |c.home|)
    && (forall p :: 0 <= p < |c.home| ==> c.home[p] < c.containers)
    // the blocks hold exactly the active vertices
    && (forall b: nat, u: nat :: InBlock(c, b, u) ==> Active(c, u))
    && (forall u: nat :: Active(c, u) ==> exists b: nat :: InBlock(c, b, u))
    // two partitions per container, each with an active vertex
    && (forall p: nat :: p < |c.home| ==> HasBlock(c, p) && HasPartner(c, p))
    && (forall p: nat, q: nat, r: nat :: Pair(c, p, q) && Pair(c, p, r) ==> q == r)
    && (forall k: nat :: k < c.containers ==> Occupied(c, k))
  }

  // ---- Reference ----

  /** The PageRank iterates: `1` everywhere, then `0.15 + 0.85 * sum of rank / out-degree` over the in-edges. */
  ghost function Rank(c: Config, k: nat, u: nat): real
    requires ValidConfig(c) && u < c.n
    decreases k, 0
  {
    if k == 0 then 1.0 else 0.15 + 0.85 * Gathered(c, k - 1, u, |c.inn[u]|)
  }

  /** What the first `i` in-edges of `u` contribute to the next iterate. */
  ghost function Gathered(c: Config, k: nat, u: nat, i: nat): real
    requires ValidConfig(c) && u < c.n && i <= |c.inn[u]|
    decreases k, 1, i
  {
    if i == 0 then 0.0
    else
      var x := c.inn[u][i - 1];
      assert x in c.inn[u] && Active(c, x);
      Gathered(c, k, u, i - 1) + Rank(c, k, x) / c.deg[x] as real
  }

  /** What a vertex hands to each out-neighbour. */
  ghost function Share(c: Config, k: nat, u: nat): real
    requires ValidConfig(c) && Active(c, u)
  {
    Rank(c, k, u) / c.deg[u] as real
  }

  // ---- The machine ----

  /** A block is at the head of its loop, or adding up the in-edges of its `at`-th vertex. */
  datatype Block = Block(at: nat, adding: bool, i: nat, acc: real)

  /** A partition's `Calc` is running its blocks, has counted to two and will flip the tag, has flipped it
      and will reset the counter, or has replied. */
  datatype Phase = Running | Flipping | Resetting | Replied

  /** `written` and `round` record history only: the buffer entries stored in this round, and the completed rounds. */
  datatype State = State(buf: seq<seq<real>>, tags: seq<nat>, finished: seq<int>, blocks: seq<Block>,
                         phases: seq<Phase>, written: set<(nat, nat)>, round: nat)

  const START := Block(0, false, 0, 0.0)

  /** What `Load` stores for a vertex. */
  function FirstShare(degree: nat): real { if degree > 0 then 1.0 / degree as real else 1.0 }

  function Initial(c: Config): State
    requires |c.deg| == c.n
  {
    State([seq(c.n, u requires 0 <= u < c.n => FirstShare(c.deg[u])), seq(c.n, _ => 0.0)],
          seq(c.containers, _ => 1), seq(c.containers, _ => 0),
          seq(|c.lists|, _ => START), seq(|c.home|, _ => Running), {}, 0)
  }

  function Vertex(c: Config, b: nat, at: nat): (u: nat)
    requires ValidConfig(c) && b < |c.lists| && at < |c.lists[b]|
    ensures Active(c, u)
  {
    assert InBlock(c, b, c.lists[b][at]);
    c.lists[b][at]
  }

  ghost predicate BlockTyped(c: Config, b: nat, w: Block)
    requires ValidConfig(c) && b < |c.lists|
  {
    && w.at <= |c.lists[b]|
    && (w.adding ==> w.at < |c.lists[b]| && w.i <= |c.inn[Vertex(c, b, w.at)]|)
  }

  ghost predicate Typed(c: Config, s: State)
    requires ValidConfig(c)
  {
    && |s.buf| == 2 && |s.buf[0]| == |s.buf[1]| == c.n
    && |s.tags| == |s.finished| == c.containers
    && |s.blocks| == |c.lists| && |s.phases| == |c.home|
    && (forall k :: 0 <= k < c.containers ==> s.tags[k] < 2)
    && (forall b: nat :: b < |c.lists| ==> BlockTyped(c, b, s.blocks[b]))
  }

  /** The tag the blocks of `b`'s container see. */
  function TagOf(c: Config, s: State, b: nat): (t: nat)
    requires ValidConfig(c) && Typed(c, s) && b < |c.lists|
    ensures t < 2
  {
    s.tags[c.home[c.part[b]]]
  }

  predicate BlockDone(c: Config, s: State, b: nat)
    requires b < |c.lists| && b < |s.blocks|
  {
    s.blocks[b].at == |c.lists[b]|
  }

  /** All of the partition's blocks are through. */
  predicate AllDone(c: Config, s: State, p: nat)
    requires |c.part| == |c.lists| == |s.blocks|
  {
    forall b: nat | b < |c.part| :: c.part[b] == p ==> BlockDone(c, s, b)
  }

  datatype Action =
    | Take(b: nat)
    | Add(b: nat)
    | Store(b: nat)
    | Count(p: nat)
    | Flip(p: nat)
    | Reset(p: nat)

  predicate Enabled(c: Config, s: State, a: Action)
    requires ValidConfig(c) && Typed(c, s)
  {
    match a
    case Take(b) => b < |c.lists| && !s.blocks[b].adding && !BlockDone(c, s, b)
    case Add(b) => b < |c.lists| && s.blocks[b].adding && s.blocks[b].i < |c.inn[Vertex(c, b, s.blocks[b].at)]|
    case Store(b) => b < |c.lists| && s.blocks[b].adding && s.blocks[b].i == |c.inn[Vertex(c, b, s.blocks[b].at)]|
    case Count(p) => p < |c.home| && s.phases[p].Running? && AllDone(c, s, p)
    case Flip(p) => p < |c.home| && s.phases[p].Flipping?
    case Reset(p) => p < |c.home| && s.phases[p].Resetting?
  }

  function Other(tag: nat): nat { if tag == 0 then 1 else 0 }

  /** The cell an `Add` step reads. */
  function Source(c: Config, s: State, b: nat): (x: nat)
    requires ValidConfig(c) && Typed(c, s) && Enabled(c, s, Add(b))
    ensures Active(c, x)
  {
    var u := Vertex(c, b, s.blocks[b].at);
    assert c.inn[u][s.blocks[b].i] in c.inn[u];
    c.inn[u][s.blocks[b].i]
  }

  function NewVal(c: Config, s: State, b: nat): real
    requires ValidConfig(c) && Typed(c, s) && Enabled(c, s, Store(b))
  {
    (0.15 + 0.85 * s.blocks[b].acc) / c.deg[Vertex(c, b, s.blocks[b].at)] as real
  }

  function Apply(c: Config, s: State, a: Action): State
    requires ValidConfig(c) && Typed(c, s) && Enabled(c, s, a)
  {
    match a
    case Take(b) => s.(blocks := s.blocks[b := Block(s.blocks[b].at, true, 0, 0.0)])
    case Add(b) =>
      var w := s.blocks[b];
      var y := s.buf[Other(TagOf(c, s, b))][Source(c, s, b)];
      s.(blocks := s.blocks[b := w.(i := w.i + 1, acc := w.acc + y)])
    case Store(b) =>
      var w, t, u := s.blocks[b], TagOf(c, s, b), Vertex(c, b, s.blocks[b].at);
      s.(buf := s.buf[t := s.buf[t][u := NewVal(c, s, b)]],
         written := s.written + {(t, u)},
         blocks := s.blocks[b := Block(w.at + 1, false, 0, 0.0)])
    case Count(p) =>
      var k := c.home[p];
      s.(finished := s.finished[k := s.finished[k] + 1],
         phases := s.phases[p := if s.finished[k] + 1 == 2 then Flipping else Replied])
    case Flip(p) =>
      var k := c.home[p];
      s.(tags := s.tags[k := Other(s.tags[k])], phases := s.phases[p := Resetting])
    case Reset(p) =>
      s.(finished := s.finished[c.home[p] := 0], phases := s.phases[p := Replied])
  }

  predicate RoundOver(s: State) {
    forall p :: 0 <= p < |s.phases| ==> s.phases[p].Replied?
  }

  /** With `no_change` the same vertices run again. */
  function EndRound(c: Config, s: State): State {
    s.(blocks := seq(|c.lists|, _ => START), phases := seq(|c.home|, _ => Running), written := {}, round := s.round + 1)
  }

  lemma StepTyped(c: Config, s: State, a: Action)
    requires ValidConfig(c) && Typed(c, s) && Enabled(c, s, a)
    ensures Typed(c, Apply(c, s, a))
  {
  }

  // ---- Tags and counters ----

  /** The buffer written in round `round + 1`, and the one read. */
  function NewTag(round: nat): nat { if round % 2 == 0 then 1 else 0 }

  function OldTag(round: nat): nat { Other(NewTag(round)) }

  /** Where the two partitions of a container can be, and what their counter and tag then are. */
  ghost predicate PairOk(p: Phase, q: Phase, finished: int, tag: nat, round: nat) {
    || (p.Running? && q.Running? && finished == 0 && tag == NewTag(round))
    || (p.Running? && q.Replied? && finished == 1 && tag == NewTag(round))
    || (p.Replied? && q.Running? && finished == 1 && tag == NewTag(round))
    || (p.Flipping? && q.Replied? && finished == 2 && tag == NewTag(round))
    || (p.Replied? && q.Flipping? && finished == 2 && tag == NewTag(round))
    || (p.Resetting? && q.Replied? && finished == 2 && tag == OldTag(round))
    || (p.Replied? && q.Resetting? && finished == 2 && tag == OldTag(round))
    || (p.Replied? && q.Replied? && finished == 0 && tag == OldTag(round))
  }

  ghost predicate PairsOk(c: Config, s: State)
    requires ValidConfig(c) && Typed(c, s)
  {
    forall p: nat, q: nat :: Pair(c, p, q) ==>
      PairOk(s.phases[p], s.phases[q], s.finished[c.home[p]], s.tags[c.home[p]], s.round)
  }

  /** A partition that has counted is through with its blocks. */
  ghost predicate CountedDone(c: Config, s: State)
    requires ValidConfig(c) && Typed(c, s)
  {
    forall p: nat :: p < |c.home| && !s.phases[p].Running? ==> AllDone(c, s, p)
  }

  /** A partition of another container leaves this one's counter and tag alone. */
  lemma OutsidersKeep(c: Config, s: State, a: Action, p: nat, q: nat)
    requires ValidConfig(c) && Typed(c, s) && Enabled(c, s, a) && Pair(c, p, q)
    requires (a.Count? || a.Flip? || a.Reset?) && a.p != p && a.p != q
    ensures c.home[a.p] != c.home[p]
  {
    if c.home[a.p] == c.home[p] { assert Pair(c, p, a.p); }
  }

  lemma StepPairs(c: Config, s: State, a: Action)
    requires ValidConfig(c) && Typed(c, s) && Enabled(c, s, a) && PairsOk(c, s)
    ensures Typed(c, Apply(c, s, a)) && PairsOk(c, Apply(c, s, a))
  {
    StepTyped(c, s, a);
    var t := Apply(c, s, a);
    forall p: nat, q: nat | Pair(c, p, q)
      ensures PairOk(t.phases[p], t.phases[q], t.finished[c.home[p]], t.tags[c.home[p]], t.round)
    {
      assert PairOk(s.phases[p], s.phases[q], s.finished[c.home[p]], s.tags[c.home[p]], s.round);
      if (a.Count? || a.Flip? || a.Reset?) && a.p != p && a.p != q { OutsidersKeep(c, s, a, p, q); }
    }
  }
}
