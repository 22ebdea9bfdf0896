/** Breadth-first search on one shared-memory host: several partition workers share one parent array and
    mark vertices by an unsynchronised check followed by a plain store, so two workers may both claim a
    vertex and the later store overwrites the earlier parent. */
module Bfs {
  import opened Graphs
  import opened Partitions

  /** What `Load` stores for every vertex but the source. */
  const UNMARKED: nat := 1_000_000_000

  datatype Config = Config(g: Graph, parts: Parts, source: nat)

  /** No vertex id may collide with the mark for "not reached". */
  ghost predicate ValidConfig(c: Config) {
    WellFormed(c.g) && Covers(c.parts, c.g.n) && c.g.n <= 1_000_000_000
  }

  /** As in the min-propagation protocol, with `Claim` between a successful check and the store, and
      `Push` between the store and the activation. */
  datatype Pc = Waiting | Head | Scan | Claim | Push | Done

  datatype Worker = Worker(pc: Pc, queue: seq<nat>, next: set<nat>, x: nat, i: nat)

  /** `base`, `rank`, `found` and `round` record history only: the array at the start of the round, the order
      of first discovery, how many vertices have been discovered, and the completed rounds. */
  datatype State = State(parent: seq<nat>, workers: seq<Worker>, active: set<nat>,
                         base: seq<nat>, rank: seq<nat>, found: nat, round: nat)

  const FRESH := Worker(Waiting, [], {}, 0, 0)

  predicate MarkedIn(a: seq<nat>, v: nat) { v < |a| && a[v] != 1_000_000_000 }

  predicate Marked(s: State, v: nat) { MarkedIn(s.parent, v) }

  function Loaded(c: Config): seq<nat> {
    seq(c.g.n, u requires 0 <= u => if u != c.source then UNMARKED else 0)
  }

  /** A source that is not a vertex activates nothing. */
  function Initial(c: Config): State {
    var active := if c.source < c.g.n then {c.source} else {};
    State(Loaded(c), seq(|c.parts.start|, _ => FRESH), active, Loaded(c),
          seq(c.g.n, _ => 0), |active|, 0)
  }

  predicate Busy(w: Worker) { w.pc.Scan? || w.pc.Claim? || w.pc.Push? }

  predicate OnEdge(w: Worker) { w.pc.Claim? || w.pc.Push? }

  ghost predicate ValidWorker(c: Config, p: nat, w: Worker)
    requires ValidConfig(c)
  {
    && (forall u :: u in w.queue ==> Owns(c.parts, p, u))
    && (forall u :: u in w.next ==> u < c.g.n)
    && (w.pc.Waiting? || w.pc.Done? ==> w.queue == [])
    && (w.pc.Waiting? ==> w.next == {})
    && (Busy(w) ==> Owns(c.parts, p, w.x) && w.i <= |c.g.out[w.x]|)
    && (OnEdge(w) ==> w.i < |c.g.out[w.x]|)
  }

  ghost predicate Typed(c: Config, s: State)
    requires ValidConfig(c)
  {
    && |s.parent| == |s.base| == |s.rank| == c.g.n
    && |s.workers| == |c.parts.start|
    && (forall p :: 0 <= p < |s.workers| ==> ValidWorker(c, p, s.workers[p]))
    && (forall v :: v in s.active ==> v < c.g.n)
  }

  function Target(c: Config, w: Worker): (v: nat)
    requires ValidConfig(c) && w.x < c.g.n && w.i < |c.g.out[w.x]|
    ensures v < c.g.n && EdgeTo(c.g, w.x, v)
  {
    assert HasEdge(c.g, w.x, w.i);
    c.g.out[w.x][w.i].dst
  }

  datatype Action =
    | Dispatch(p: nat)
    | Pop(p: nat)
    | Check(p: nat)
    | Store(p: nat)
    | Activate(p: nat)
    | Finish(p: nat)

  predicate Enabled(c: Config, s: State, a: Action)
    requires ValidConfig(c) && Typed(c, s)
  {
    s.active != {} && a.p < |s.workers| &&
    match a
    case Dispatch(p) => s.workers[p].pc.Waiting?
    case Pop(p) => s.workers[p].pc.Head? && s.workers[p].queue != []
    case Check(p) => s.workers[p].pc.Scan?
    case Store(p) => s.workers[p].pc.Claim?
    case Activate(p) => s.workers[p].pc.Push?
    case Finish(p) => s.workers[p].pc.Head? && s.workers[p].queue == []
  }

  /** The store of a parent; the first one for a vertex discovers it. */
  function Claimed(s: State, v: nat, x: nat): State
    requires v < |s.parent| && v < |s.rank|
  {
    s.(parent := s.parent[v := x],
       rank := if Marked(s, v) then s.rank else s.rank[v := s.found],
       found := if Marked(s, v) then s.found else s.found + 1)
  }

  function Effect(c: Config, s: State, a: Action): State
    requires ValidConfig(c) && Typed(c, s) && Enabled(c, s, a)
  {
    if a.Store? then Claimed(s, Target(c, s.workers[a.p]), s.workers[a.p].x) else s
  }

  function After(c: Config, s: State, a: Action): Worker
    requires ValidConfig(c) && Typed(c, s) && Enabled(c, s, a)
  {
    var w := s.workers[a.p];
    match a
    case Dispatch(p) =>
      w.(pc := Head, queue := ActiveList(c.parts.start[p], c.parts.size[p], s.active))
    case Pop(p) =>
      assert w.queue[0] in w.queue;
      w.(pc := Scan, queue := w.queue[1..], x := w.queue[0], i := 0)
    case Check(p) =>
      if w.i == |c.g.out[w.x]| then w.(pc := Head)
      else if !Marked(s, Target(c, w)) then w.(pc := Claim)
      else w.(i := w.i + 1)
    case Store(p) => w.(pc := Push)
    case Activate(p) =>
      var v := Target(c, w);
      if Owns(c.parts, p, v) then w.(pc := Scan, i := w.i + 1, queue := w.queue + [v])
      else w.(pc := Scan, i := w.i + 1, next := w.next + {v})
    case Finish(p) => w.(pc := Done)
  }

  function Apply(c: Config, s: State, a: Action): State
    requires ValidConfig(c) && Typed(c, s) && Enabled(c, s, a)
  {
    var t := Effect(c, s, a);
    t.(workers := t.workers[a.p := After(c, s, a)])
  }

  predicate RoundOver(s: State) {
    s.active != {} && forall p :: 0 <= p < |s.workers| ==> s.workers[p].pc.Done?
  }

  function Replies(ws: seq<Worker>): set<nat> {
    set p, u | 0 <= p < |ws| && u in ws[p].next :: u
  }

  function EndRound(c: Config, s: State): State {
    s.(workers := seq(|c.parts.start|, _ => FRESH), active := Replies(s.workers), base := s.parent, round := s.round + 1)
  }

  ghost predicate AtBarrier(s: State) {
    forall p :: 0 <= p < |s.workers| ==> s.workers[p].pc.Waiting?
  }

  ghost predicate Exited(s: State) { AtBarrier(s) && s.active == {} }

  lemma AfterValid(c: Config, s: State, a: Action)
    requires ValidConfig(c) && Typed(c, s) && Enabled(c, s, a)
    ensures ValidWorker(c, a.p, After(c, s, a))
  {
    if a.Pop? {
      var q := s.workers[a.p].queue;
      assert q[0] in q;
      assert forall u :: u in q[1..] ==> u in q;
    }
  }

  lemma StepTyped(c: Config, s: State, a: Action)
    requires ValidConfig(c) && Typed(c, s) && Enabled(c, s, a)
    ensures Typed(c, Apply(c, s, a))
  {
    AfterValid(c, s, a);
  }

  /** A mark is never lost, and a step marks at most the target of its store. */
  lemma MarksGrow(c: Config, s: State, a: Action, v: nat)
    requires ValidConfig(c) && Typed(c, s) && Enabled(c, s, a)
    ensures Marked(s, v) ==> Marked(Apply(c, s, a), v)
    ensures Marked(Apply(c, s, a), v) ==> Marked(s, v) || (a.Store? && v == Target(c, s.workers[a.p]))
    ensures a.Store? ==> Marked(Apply(c, s, a), Target(c, s.workers[a.p]))
  {
  }

  // ---- Discovery order ----

  /** Every marked vertex but the source has a parent that is a true in-neighbour and was discovered before it. */
  ghost predicate GoodParent(c: Config, s: State, v: nat)
    requires ValidConfig(c) && Typed(c, s) && v < c.g.n
  {
    && s.rank[v] < s.found
    && Reaches(c.g, c.source, v)
    && (v != c.source ==>
          && Marked(s, s.parent[v])
          && EdgeTo(c.g, s.parent[v], v)
          && s.rank[s.parent[v]] < s.rank[v])
  }

  /** A worker about to store `x` as the parent of `v` was preceded by nobody, or by somebody who discovered
      `v` after `x` was known. */
  ghost predicate GoodClaim(c: Config, s: State, w: Worker)
    requires ValidConfig(c) && Typed(c, s) && w.x < c.g.n && w.i < |c.g.out[w.x]|
  {
    var v := Target(c, w);
    v != c.source && (!Marked(s, v) || s.rank[w.x] < s.rank[v])
  }

  /** Everything on its way to be scanned has been marked. */
  ghost predicate KnownOnly(c: Config, s: State, w: Worker)
    requires ValidConfig(c) && Typed(c, s)
  {
    && (forall u :: u in w.queue || u in w.next ==> Marked(s, u))
    && (Busy(w) ==> Marked(s, w.x))
    && (w.pc.Push? ==> w.x < c.g.n && w.i < |c.g.out[w.x]| && Marked(s, Target(c, w)))
  }

  ghost predicate AllGood(c: Config, s: State)
    requires ValidConfig(c) && Typed(c, s)
  {
    forall v: nat :: Marked(s, v) ==> GoodParent(c, s, v)
  }

  ghost predicate AllKnown(c: Config, s: State)
    requires ValidConfig(c) && Typed(c, s)
  {
    forall p :: 0 <= p < |s.workers| ==> KnownOnly(c, s, s.workers[p])
  }

  ghost predicate ClaimsGood(c: Config, s: State)
    requires ValidConfig(c) && Typed(c, s)
  {
    forall p :: 0 <= p < |s.workers| && s.workers[p].pc.Claim? ==> GoodClaim(c, s, s.workers[p])
  }

  ghost predicate Ranked(c: Config, s: State)
    requires ValidConfig(c) && Typed(c, s)
  {
    && AllGood(c, s) && AllKnown(c, s) && ClaimsGood(c, s)
    && (forall u :: u in s.active ==> Marked(s, u))
    && (c.source < c.g.n ==> Marked(s, c.source))
  }

  lemma StoreGood(c: Config, s: State, v: nat, x: nat)
    requires ValidConfig(c) && Typed(c, s) && AllGood(c, s) && v < c.g.n && Typed(c, Claimed(s, v, x))
    requires v != c.source && Marked(s, x) && EdgeTo(c.g, x, v)
    requires !Marked(s, v) || s.rank[x] < s.rank[v]
    ensures AllGood(c, Claimed(s, v, x))
  {
    var t := Claimed(s, v, x);
    assert GoodParent(c, s, x);
    ReachesNext(c.g, c.source, x, v);
    forall u: nat | Marked(t, u)
      ensures GoodParent(c, t, u)
    {
      if u != v {
        assert GoodParent(c, s, u);
        if u != c.source { assert GoodParent(c, s, s.parent[u]); }
      }
    }
  }

  lemma StoreClaims(c: Config, s: State, v: nat, x: nat)
    requires ValidConfig(c) && Typed(c, s) && AllGood(c, s) && AllKnown(c, s) && ClaimsGood(c, s)
    requires v < c.g.n && x < c.g.n && Typed(c, Claimed(s, v, x))
    ensures ClaimsGood(c, Claimed(s, v, x)) && AllKnown(c, Claimed(s, v, x))
  {
    var t := Claimed(s, v, x);
    forall p | 0 <= p < |s.workers|
      ensures KnownOnly(c, t, s.workers[p])
      ensures s.workers[p].pc.Claim? ==> GoodClaim(c, t, s.workers[p])
    {
      var w := s.workers[p];
      assert KnownOnly(c, s, w);
      if w.pc.Claim? { assert GoodClaim(c, s, w) && GoodParent(c, s, w.x); }
    }
  }

  lemma EffectRanked(c: Config, s: State, a: Action)
    requires ValidConfig(c) && Typed(c, s) && Enabled(c, s, a) && Ranked(c, s)
    ensures Typed(c, Effect(c, s, a)) && Ranked(c, Effect(c, s, a))
  {
    if a.Store? {
      var w := s.workers[a.p];
      assert GoodClaim(c, s, w) && KnownOnly(c, s, w);
      StoreGood(c, s, Target(c, w), w.x);
      StoreClaims(c, s, Target(c, w), w.x);
    }
  }

  lemma AfterKnown(c: Config, s: State, a: Action)
    requires ValidConfig(c) && Typed(c, s) && Enabled(c, s, a) && Ranked(c, s)
    requires Typed(c, Apply(c, s, a))
    ensures KnownOnly(c, Apply(c, s, a), After(c, s, a))
    ensures After(c, s, a).pc.Claim? ==> GoodClaim(c, Apply(c, s, a), After(c, s, a))
  {
    var w := s.workers[a.p];
    assert KnownOnly(c, s, w);
    AfterValid(c, s, a);
    if a.Pop? {
      assert w.queue[0] in w.queue;
      assert forall u :: u in w.queue[1..] ==> u in w.queue;
    } else if a.Store? {
      MarksGrow(c, s, a, w.x);
      forall u | u in w.queue || u in w.next
        ensures Marked(Apply(c, s, a), u)
      {
        MarksGrow(c, s, a, u);
      }
    }
  }

  lemma StepRanked(c: Config, s: State, a: Action)
    requires ValidConfig(c) && Typed(c, s) && Enabled(c, s, a) && Ranked(c, s)
    ensures Typed(c, Apply(c, s, a)) && Ranked(c, Apply(c, s, a))
  {
    StepTyped(c, s, a);
    EffectRanked(c, s, a);
    AfterKnown(c, s, a);
    var e, t := Effect(c, s, a), Apply(c, s, a);
    forall v: nat | Marked(t, v)
      ensures GoodParent(c, t, v)
    {
      assert GoodParent(c, e, v);
    }
    forall p | 0 <= p < |t.workers|
      ensures KnownOnly(c, t, t.workers[p])
      ensures t.workers[p].pc.Claim? ==> GoodClaim(c, t, t.workers[p])
    {
      if p != a.p { assert KnownOnly(c, e, e.workers[p]); }
    }
  }

  // ---- Pending work ----

  ghost predicate Queued(s: State, p: nat, u: nat) {
    p < |s.workers| && ((s.workers[p].pc.Waiting? && u in s.active) || u in s.workers[p].queue)
  }

  /** Worker `q` holds the activation of `u`. */
  ghost predicate Holds(c: Config, s: State, q: nat, u: nat)
    requires ValidConfig(c) && Typed(c, s)
  {
    && q < |s.workers|
    && (u in s.workers[q].next || (s.workers[q].pc.Push? && Target(c, s.workers[q]) == u))
  }

  ghost predicate Held(c: Config, s: State, u: nat)
    requires ValidConfig(c) && Typed(c, s)
  {
    exists q: nat :: Holds(c, s, q, u)
  }

  ghost predicate Scanning(s: State, p: nat, u: nat, k: nat) {
    && p < |s.workers|
    && s.workers[p].x == u
    && (match s.workers[p].pc
        case Scan => s.workers[p].i <= k
        case Claim => s.workers[p].i <= k
        case Push => s.workers[p].i < k
        case _ => false)
  }

  /** The edge has been followed, or will be in this round. */
  ghost predicate InHand(c: Config, s: State, p: nat, u: nat, k: nat)
    requires ValidConfig(c) && Typed(c, s) && HasEdge(c.g, u, k)
  {
    Marked(s, c.g.out[u][k].dst) || Queued(s, p, u) || Scanning(s, p, u, k)
  }

  /** Every edge out of a marked vertex is in hand, or its tail's activation is held by some worker; and edges
      out of vertices marked before the round are in hand. */
  ghost predicate Accounted(c: Config, s: State)
    requires ValidConfig(c) && Typed(c, s)
  {
    forall p: nat, u: nat, k: nat :: Owns(c.parts, p, u) && HasEdge(c.g, u, k) && Marked(s, u) ==>
      InHand(c, s, p, u, k) || (Held(c, s, u) && !MarkedIn(s.base, u))
  }

  lemma QueuedKept(c: Config, s: State, a: Action, p: nat, u: nat)
    requires ValidConfig(c) && Typed(c, s) && Enabled(c, s, a)
    requires Owns(c.parts, p, u) && Queued(s, p, u)
    requires a == Pop(p) ==> s.workers[p].queue[0] != u
    ensures Queued(Apply(c, s, a), p, u)
  {
    if a == Pop(p) && u in s.workers[p].queue { assert u in s.workers[p].queue[1..]; }
  }

  lemma HeldKept(c: Config, s: State, a: Action, p: nat, u: nat)
    requires ValidConfig(c) && Typed(c, s) && Enabled(c, s, a) && Typed(c, Apply(c, s, a))
    requires Owns(c.parts, p, u) && Held(c, s, u)
    ensures Held(c, Apply(c, s, a), u) || Queued(Apply(c, s, a), p, u)
  {
    var t := Apply(c, s, a);
    var q: nat :| Holds(c, s, q, u);
    if a == Activate(q) && Owns(c.parts, q, u) && u !in s.workers[q].next {
      assert p == q && u in t.workers[p].queue;
    } else {
      assert Holds(c, t, q, u);
    }
  }

  lemma InHandKept(c: Config, s: State, a: Action, p: nat, u: nat, k: nat)
    requires ValidConfig(c) && Typed(c, s) && Enabled(c, s, a) && Typed(c, Apply(c, s, a))
    requires Owns(c.parts, p, u) && HasEdge(c.g, u, k) && InHand(c, s, p, u, k)
    ensures InHand(c, Apply(c, s, a), p, u, k)
  {
    var t := Apply(c, s, a);
    MarksGrow(c, s, a, c.g.out[u][k].dst);
    if Queued(s, p, u) {
      if a == Pop(p) && s.workers[p].queue[0] == u {
        assert Scanning(t, p, u, k);
      } else {
        QueuedKept(c, s, a, p, u);
      }
    }
  }

  /** Whoever is newly marked is held by the worker that marked it. */
  lemma StepAccounted(c: Config, s: State, a: Action)
    requires ValidConfig(c) && Typed(c, s) && Enabled(c, s, a) && Accounted(c, s)
    requires forall v: nat :: MarkedIn(s.base, v) ==> Marked(s, v)
    ensures Typed(c, Apply(c, s, a)) && Accounted(c, Apply(c, s, a))
  {
    StepTyped(c, s, a);
    var t := Apply(c, s, a);
    forall p: nat, u: nat, k: nat | Owns(c.parts, p, u) && HasEdge(c.g, u, k) && Marked(t, u)
      ensures InHand(c, t, p, u, k) || (Held(c, t, u) && !MarkedIn(t.base, u))
    {
      MarksGrow(c, s, a, u);
      if !Marked(s, u) {
        assert Holds(c, t, a.p, u);
      } else if InHand(c, s, p, u, k) {
        InHandKept(c, s, a, p, u, k);
      } else {
        HeldKept(c, s, a, p, u);
      }
    }
  }

  // ---- Progress ----

  ghost function Unmarked(a: seq<nat>): (u: set<nat>)
    ensures forall v: nat :: v in u <==> v < |a| && a[v] == 1_000_000_000
  {
    set v: nat | v < |a| && a[v] == 1_000_000_000
  }

  lemma FewerUnmarked(a: seq<nat>, b: seq<nat>)
    requires |a| == |b| && forall v: nat :: MarkedIn(a, v) ==> MarkedIn(b, v)
    ensures |Unmarked(b)| <= |Unmarked(a)|
    ensures forall u: nat :: u in Unmarked(a) && MarkedIn(b, u) ==> |Unmarked(b)| < |Unmarked(a)|
  {
    forall u: nat | u in Unmarked(b)
      ensures u in Unmarked(a)
    {
      assert !MarkedIn(b, u) && !MarkedIn(a, u);
    }
    SubsetSize(Unmarked(b), Unmarked(a));
    forall u: nat | u in Unmarked(a) && MarkedIn(b, u)
      ensures |Unmarked(b)| < |Unmarked(a)|
    {
      SubsetSize(Unmarked(b), Unmarked(a) - {u});
    }
  }

  lemma LoadedUnmarked(c: Config)
    ensures |Unmarked(Loaded(c))| == if c.source < c.g.n then c.g.n - 1 else c.g.n
  {
    assert Unmarked(Loaded(c)) == Below(c.g.n) - {c.source};
  }

  /** Every vertex about to be claimed or activated was unmarked when the round began. */
  ghost predicate NewThisRound(c: Config, s: State)
    requires ValidConfig(c) && Typed(c, s)
  {
    && (forall v: nat :: MarkedIn(s.base, v) ==> Marked(s, v))
    && (forall p, u :: 0 <= p < |s.workers| && u in s.workers[p].next ==> !MarkedIn(s.base, u))
    && (forall p :: 0 <= p < |s.workers| && OnEdge(s.workers[p]) ==> !MarkedIn(s.base, Target(c, s.workers[p])))
  }

  lemma StepNew(c: Config, s: State, a: Action)
    requires ValidConfig(c) && Typed(c, s) && Enabled(c, s, a) && NewThisRound(c, s)
    ensures Typed(c, Apply(c, s, a)) && NewThisRound(c, Apply(c, s, a))
  {
    StepTyped(c, s, a);
    forall v: nat | MarkedIn(s.base, v)
      ensures Marked(Apply(c, s, a), v)
    {
      MarksGrow(c, s, a, v);
    }
  }

  /** Discoveries count the marked vertices; each completed round but the last has marked at least one. */
  ghost predicate Counted(c: Config, s: State) {
    && s.found + |Unmarked(s.parent)| == c.g.n
    && s.round + |Unmarked(s.base)| + (if s.active == {} then 0 else 1) <= c.g.n
  }

  lemma StepCounted(c: Config, s: State, a: Action)
    requires ValidConfig(c) && Typed(c, s) && Enabled(c, s, a) && Counted(c, s)
    requires a.Store? ==> Marked(s, s.workers[a.p].x)
    ensures Counted(c, Apply(c, s, a))
  {
    if a.Store? {
      var v, x := Target(c, s.workers[a.p]), s.workers[a.p].x;
      assert Unmarked(s.parent[v := x]) == Unmarked(s.parent) - {v};
    } else {
      assert Apply(c, s, a).parent == s.parent;
    }
  }

  /** After `round` rounds every vertex within `round` edges of the source has been marked. */
  ghost predicate Levelled(c: Config, s: State)
    requires ValidConfig(c)
  {
    forall wk :: IsWalk(c.g, wk) && Start(wk) == c.source && Len(wk) <= s.round ==> MarkedIn(s.base, End(c.g, wk))
  }

  /** The source keeps what was loaded: nobody finds it unmarked. */
  ghost predicate SourceStays(c: Config, s: State)
    requires ValidConfig(c) && Typed(c, s)
  {
    match c
    case Config(g, _, source) =>
      && (source < g.n ==> s.parent[source] == 0)
      && (forall p :: 0 <= p < |s.workers| && s.workers[p].pc.Claim? ==> Target(c, s.workers[p]) != source)
  }

  lemma StepSource(c: Config, s: State, a: Action)
    requires ValidConfig(c) && Typed(c, s) && Enabled(c, s, a) && Typed(c, Apply(c, s, a)) && SourceStays(c, s)
    ensures SourceStays(c, Apply(c, s, a))
  {
    var t := Apply(c, s, a);
    forall p | 0 <= p < |t.workers| && t.workers[p].pc.Claim?
      ensures Target(c, t.workers[p]) != c.source
    {
      if p != a.p { assert t.workers[p] == s.workers[p]; }
    }
  }

  ghost predicate Inv(c: Config, s: State)
    requires ValidConfig(c)
  {
    && Typed(c, s) && Ranked(c, s) && Accounted(c, s) && NewThisRound(c, s)
    && Counted(c, s) && Levelled(c, s) && SourceStays(c, s)
  }

  lemma StepInv(c: Config, s: State, a: Action)
    requires ValidConfig(c) && Inv(c, s) && Enabled(c, s, a)
    ensures Inv(c, Apply(c, s, a))
  {
    StepRanked(c, s, a);
    StepAccounted(c, s, a);
    StepNew(c, s, a);
    assert KnownOnly(c, s, s.workers[a.p]);
    StepCounted(c, s, a);
    StepSource(c, s, a);
    assert Apply(c, s, a).base == s.base;
  }

  /** A state between rounds. */
  ghost predicate Settled(c: Config, s: State)
    requires ValidConfig(c)
  {
    && Typed(c, s) && s.base == s.parent
    && (forall p :: 0 <= p < |s.workers| ==> s.workers[p] == FRESH)
  }

  ghost predicate MarksAreGood(c: Config, s: State)
    requires ValidConfig(c) && Typed(c, s)
  {
    && AllGood(c, s)
    && (forall u :: u in s.active ==> Marked(s, u))
    && (c.source < c.g.n ==> Marked(s, c.source))
  }

  lemma SettledRanked(c: Config, s: State)
    requires ValidConfig(c) && Settled(c, s) && MarksAreGood(c, s)
    ensures Ranked(c, s)
  {
    forall p | 0 <= p < |s.workers|
      ensures KnownOnly(c, s, s.workers[p])
    {
      assert s.workers[p] == FRESH;
    }
  }

  lemma SettledAccounted(c: Config, s: State)
    requires ValidConfig(c) && Settled(c, s)
    requires forall u: nat, k: nat :: HasEdge(c.g, u, k) && Marked(s, u) ==>
      u in s.active || Marked(s, c.g.out[u][k].dst)
    ensures Accounted(c, s) && NewThisRound(c, s)
  {
    forall p: nat, u: nat, k: nat | Owns(c.parts, p, u) && HasEdge(c.g, u, k) && Marked(s, u)
      ensures InHand(c, s, p, u, k)
    {
      assert s.workers[p] == FRESH;
    }
  }

  lemma InitialInv(c: Config)
    requires ValidConfig(c)
    ensures Inv(c, Initial(c))
  {
    var s := Initial(c);
    LoadedUnmarked(c);
    if c.source < c.g.n { ReachesSelf(c.g, c.source); }
    SettledRanked(c, s);
    SettledAccounted(c, s);
  }

  lemma RepliesKnown(c: Config, s: State, u: nat)
    requires ValidConfig(c) && Typed(c, s) && AllKnown(c, s) && NewThisRound(c, s) && u in Replies(s.workers)
    ensures Marked(s, u) && u < c.g.n && u in Unmarked(s.base)
  {
    var p :| 0 <= p < |s.workers| && u in s.workers[p].next;
    assert KnownOnly(c, s, s.workers[p]) && ValidWorker(c, p, s.workers[p]);
    assert !MarkedIn(s.base, u) && u < |s.base|;
  }

  /** When the round is over, a marked vertex with an unmarked neighbour is in some reply. */
  lemma LeftoverReplied(c: Config, s: State, u: nat, k: nat)
    requires ValidConfig(c) && Typed(c, s) && Accounted(c, s) && RoundOver(s) && HasEdge(c.g, u, k) && Marked(s, u)
    ensures u in Replies(s.workers) || Marked(s, c.g.out[u][k].dst)
  {
    assert Owned(c.parts, u);
    var p: nat :| Owns(c.parts, p, u);
    assert s.workers[p].pc.Done? && ValidWorker(c, p, s.workers[p]);
    assert !Queued(s, p, u) && !Scanning(s, p, u, k);
    if !Marked(s, c.g.out[u][k].dst) {
      assert !InHand(c, s, p, u, k);
      var q: nat :| Holds(c, s, q, u);
    }
  }

  /** A round that leaves something active has marked a vertex. */
  lemma RoundMarks(c: Config, s: State)
    requires ValidConfig(c) && Typed(c, s) && AllKnown(c, s) && NewThisRound(c, s)
    ensures |Unmarked(s.parent)| + (if Replies(s.workers) == {} then 0 else 1) <= |Unmarked(s.base)|
  {
    FewerUnmarked(s.base, s.parent);
    if Replies(s.workers) != {} {
      var u :| u in Replies(s.workers);
      RepliesKnown(c, s, u);
    }
  }

  /** Edges out of vertices marked before the round have been followed when it is over. */
  lemma RoundFollows(c: Config, s: State, u: nat, k: nat)
    requires ValidConfig(c) && Typed(c, s) && Accounted(c, s) && RoundOver(s)
    requires HasEdge(c.g, u, k) && MarkedIn(s.base, u) && Marked(s, u)
    ensures Marked(s, c.g.out[u][k].dst)
  {
    assert Owned(c.parts, u);
    var p: nat :| Owns(c.parts, p, u);
    assert s.workers[p].pc.Done? && ValidWorker(c, p, s.workers[p]);
    assert !Queued(s, p, u) && !Scanning(s, p, u, k);
    assert InHand(c, s, p, u, k);
  }

  lemma RoundLevels(c: Config, s: State)
    requires ValidConfig(c) && Inv(c, s) && RoundOver(s)
    ensures Levelled(c, EndRound(c, s))
  {
    forall wk | IsWalk(c.g, wk) && Start(wk) == c.source && Len(wk) <= s.round + 1
      ensures Marked(s, End(c.g, wk))
    {
      if wk.Then? {
        assert MarkedIn(s.base, End(c.g, wk.prefix));
        RoundFollows(c, s, End(c.g, wk.prefix), wk.k);
      }
    }
  }

  lemma EndTyped(c: Config, s: State)
    requires ValidConfig(c) && Inv(c, s) && RoundOver(s)
    ensures Typed(c, EndRound(c, s)) && Settled(c, EndRound(c, s)) && SourceStays(c, EndRound(c, s))
    ensures forall u :: u in EndRound(c, s).active ==> Marked(s, u)
  {
    forall u | u in Replies(s.workers)
      ensures Marked(s, u) && u < c.g.n
    {
      RepliesKnown(c, s, u);
    }
  }

  lemma EndRanked(c: Config, s: State)
    requires ValidConfig(c) && Inv(c, s) && RoundOver(s)
    ensures Typed(c, EndRound(c, s)) && Ranked(c, EndRound(c, s))
  {
    var t := EndRound(c, s);
    EndTyped(c, s);
    forall v: nat | Marked(t, v)
      ensures GoodParent(c, t, v)
    {
      assert GoodParent(c, s, v);
    }
    SettledRanked(c, t);
  }

  lemma EndAccounted(c: Config, s: State)
    requires ValidConfig(c) && Inv(c, s) && RoundOver(s)
    ensures Typed(c, EndRound(c, s)) && Accounted(c, EndRound(c, s)) && NewThisRound(c, EndRound(c, s))
  {
    var t := EndRound(c, s);
    EndTyped(c, s);
    forall u: nat, k: nat | HasEdge(c.g, u, k) && Marked(t, u)
      ensures u in t.active || Marked(t, c.g.out[u][k].dst)
    {
      LeftoverReplied(c, s, u, k);
    }
    SettledAccounted(c, t);
  }

  lemma EndRoundInv(c: Config, s: State)
    requires ValidConfig(c) && Inv(c, s) && RoundOver(s)
    ensures Inv(c, EndRound(c, s)) && AtBarrier(EndRound(c, s))
  {
    EndTyped(c, s);
    EndRanked(c, s);
    EndAccounted(c, s);
    RoundMarks(c, s);
    RoundLevels(c, s);
  }

  // ---- What the search returns ----

  /** Follow the parents from `v`, stopping at the source. */
  ghost function Climb(parent: seq<nat>, source: nat, v: nat, steps: nat): nat
    decreases steps
  {
    if steps == 0 || v == source || v >= |parent| then v else Climb(parent, source, parent[v], steps - 1)
  }

  /** The source is above every marked vertex. */
  lemma {:induction false} ClimbsToSource(c: Config, s: State, v: nat, steps: nat)
    requires ValidConfig(c) && Typed(c, s) && AllGood(c, s) && Marked(s, v) && s.rank[v] <= steps
    ensures Climb(s.parent, c.source, v, steps) == c.source
    decreases steps
  {
    assert GoodParent(c, s, v);
    if v != c.source { ClimbsToSource(c, s, s.parent[v], steps - 1); }
  }

  lemma ExitFollowed(c: Config, s: State, u: nat, k: nat)
    requires ValidConfig(c) && Typed(c, s) && Accounted(c, s) && Exited(s) && HasEdge(c.g, u, k) && Marked(s, u)
    ensures Marked(s, c.g.out[u][k].dst)
  {
    assert Owned(c.parts, u);
    var p: nat :| Owns(c.parts, p, u);
    assert s.workers[p].pc.Waiting? && ValidWorker(c, p, s.workers[p]);
    assert !Queued(s, p, u) && !Scanning(s, p, u, k);
    forall q: nat
      ensures !Holds(c, s, q, u)
    {
      if q < |s.workers| { assert ValidWorker(c, q, s.workers[q]); }
    }
  }

  lemma {:induction false} ExitMarks(c: Config, s: State, wk: Walk)
    requires ValidConfig(c) && Inv(c, s) && Exited(s) && IsWalk(c.g, wk) && Start(wk) == c.source
    ensures Marked(s, End(c.g, wk))
  {
    if wk.Then? {
      ExitMarks(c, s, wk.prefix);
      ExitFollowed(c, s, End(c.g, wk.prefix), wk.k);
    }
  }

  /** A search tree: exactly the reachable vertices are marked, every marked vertex but the source stores a
      true in-neighbour, and following parents from it arrives at the source. */
  ghost predicate SearchTree(g: Graph, source: nat, parent: seq<nat>)
    requires WellFormed(g)
  {
    && |parent| == g.n && (source < g.n ==> parent[source] == 0)
    && (forall v: nat :: v < g.n ==> (parent[v] != 1_000_000_000 <==> Reaches(g, source, v)))
    && (forall v: nat :: v < g.n && v != source && parent[v] != 1_000_000_000 ==> EdgeTo(g, parent[v], v))
    && (forall v: nat :: v < g.n && parent[v] != 1_000_000_000 ==> Climb(parent, source, v, g.n) == source)
  }

  lemma ExitIsTree(c: Config, s: State)
    requires ValidConfig(c) && Inv(c, s) && Exited(s)
    ensures SearchTree(c.g, c.source, s.parent)
  {
    forall v: nat | v < c.g.n
      ensures Marked(s, v) <==> Reaches(c.g, c.source, v)
    {
      if Marked(s, v) {
        assert GoodParent(c, s, v);
      } else if wk :| WalkTo(c.g, wk, v) && Start(wk) == c.source {
        ExitMarks(c, s, wk);
      }
    }
    forall v: nat | v < c.g.n && Marked(s, v)
      ensures v != c.source ==> EdgeTo(c.g, s.parent[v], v)
      ensures Climb(s.parent, c.source, v, c.g.n) == c.source
    {
      assert GoodParent(c, s, v);
      ClimbsToSource(c, s, v, c.g.n);
    }
  }

  // ---- Whole runs ----

  ghost predicate Next(c: Config, s: State, t: State)
    requires ValidConfig(c) && Typed(c, s)
  {
    || (exists a :: Enabled(c, s, a) && t == Apply(c, s, a))
    || (RoundOver(s) && t == EndRound(c, s))
  }

  ghost predicate Steps(c: Config, s: State, t: State)
    requires ValidConfig(c)
  {
    Typed(c, s) && Next(c, s, t)
  }

  lemma NextInv(c: Config, s: State, t: State)
    requires ValidConfig(c) && Inv(c, s) && Next(c, s, t)
    ensures Inv(c, t)
  {
    if RoundOver(s) && t == EndRound(c, s) {
      EndRoundInv(c, s);
    } else {
      var a :| Enabled(c, s, a) && t == Apply(c, s, a);
      StepInv(c, s, a);
    }
  }

  ghost predicate Run(c: Config, tr: seq<State>)
    requires ValidConfig(c)
  {
    && |tr| > 0 && tr[0] == Initial(c)
    && forall i: nat :: i + 1 < |tr| ==> Steps(c, tr[i], tr[i + 1])
  }

  lemma StepsInv(c: Config, tr: seq<State>, i: nat)
    requires ValidConfig(c) && Run(c, tr) && i + 1 < |tr| && Inv(c, tr[i])
    ensures Inv(c, tr[i + 1])
  {
    assert Steps(c, tr[i], tr[i + 1]);
    NextInv(c, tr[i], tr[i + 1]);
  }

  lemma RunInv(c: Config, tr: seq<State>, i: nat)
    requires ValidConfig(c) && Run(c, tr) && i < |tr|
    ensures Inv(c, tr[i])
  {
    InitialInv(c);
    for j := 0 to i
      invariant Inv(c, tr[j])
    {
      StepsInv(c, tr, j);
    }
  }

  /** Correctness over every run, whoever wins the races. */
  lemma Correct(c: Config, tr: seq<State>, i: nat)
    requires ValidConfig(c) && Run(c, tr) && i < |tr| && Exited(tr[i])
    ensures SearchTree(c.g, c.source, tr[i].parent)
  {
    RunInv(c, tr, i);
    ExitIsTree(c, tr[i]);
  }

  /** Round bound over every run: `k` rounds mark everything within `k` edges, and there are at most `n`. */
  lemma RunRounds(c: Config, tr: seq<State>, i: nat)
    requires ValidConfig(c) && Run(c, tr) && i < |tr|
    ensures tr[i].round <= c.g.n
    ensures forall wk :: IsWalk(c.g, wk) && Start(wk) == c.source && Len(wk) <= tr[i].round ==>
      Marked(tr[i], End(c.g, wk))
  {
    RunInv(c, tr, i);
  }
}
