/** The min-propagation protocol that SSSP and CC run on: partition workers draining worklists over
    shared replicas of one vertex array, the messages between replicas, and the coordinator's rounds.

    One step is one atomic event of one worker or of the network, so every interleaving of the
    program is a sequence of steps. */
module MinPropagation {
  import opened Graphs
  import opened Partitions

  const WORD := 0x1_0000_0000

  /** uint32 addition. */
  function AddU32(a: nat, b: nat): nat { (a + b) % WORD }

  /** `rep[p]` is the replica of the vertex array that partition `p` works on: one per host when
      memory is shared, one per partition when it is not.
      `winnerOnly` is the CC discipline: only the worker whose CAS lowered the value activates. */
  datatype Config = Config(g: Graph, parts: Parts, rep: seq<nat>, replicas: nat,
                           init: seq<nat>, seeds: set<nat>, winnerOnly: bool)

  ghost predicate ValidConfig(c: Config) {
    && WellFormed(c.g)
    && Covers(c.parts, c.g.n)
    && |c.rep| == |c.parts.start|
    && (forall p :: 0 <= p < |c.rep| ==> c.rep[p] < c.replicas)
    && |c.init| == c.g.n
    && (forall v :: v in c.seeds ==> v < c.g.n)
    // adding a weight to a value never wraps
    && (forall u: nat, k: nat, v: nat :: HasEdge(c.g, u, k) && v < c.g.n ==>
          c.init[v] + c.g.out[u][k].w < WORD)
    // a vertex that is not initially active cannot improve a neighbour
    && (forall u: nat, k: nat :: HasEdge(c.g, u, k) ==>
          u in c.seeds || c.init[c.g.out[u][k].dst] <= c.init[u] + c.g.out[u][k].w)
  }

  /** Where a worker is: not yet given the round's active set; at the head of its worklist loop; about
      to check edge `i` of `x`; past a successful check; past the CAS and about to activate the target;
      about to append the pair to its send buffer; finished with the round. */
  datatype Pc = Waiting | Head | Scan | Try | Push | Emit | Done

  datatype Worker = Worker(pc: Pc, queue: seq<nat>, next: set<nat>, x: nat, val: nat, i: nat)

  datatype Msg = Msg(v: nat, y: nat)

  /** `net[r]` holds the pairs sent to replica `r` and not yet applied there.
      `base`, `sent` and `round` record history only: the values at the start of the round, the pairs
      broadcast during it, and the number of completed rounds. */
  datatype State = State(vals: seq<seq<nat>>, workers: seq<Worker>, net: seq<multiset<Msg>>,
                         active: set<nat>, base: seq<nat>, sent: set<Msg>, round: nat)

  const FRESH := Worker(Waiting, [], {}, 0, 0, 0)

  /** After the load phase: every replica holds the initial values. */
  function Initial(c: Config): State {
    State(seq(c.replicas, _ => c.init), seq(|c.rep|, _ => FRESH), seq(c.replicas, _ => multiset{}),
          c.seeds, c.init, {}, 0)
  }

  predicate Busy(w: Worker) { w.pc.Scan? || w.pc.Try? || w.pc.Push? || w.pc.Emit? }

  predicate OnEdge(w: Worker) { w.pc.Try? || w.pc.Push? || w.pc.Emit? }

  /** The edge worker `w` is at, its far end, and the value it offers there. */
  function Target(c: Config, w: Worker): (v: nat)
    requires ValidConfig(c) && w.x < c.g.n && w.i < |c.g.out[w.x]|
    ensures v < c.g.n
  {
    assert HasEdge(c.g, w.x, w.i);
    c.g.out[w.x][w.i].dst
  }

  function Offer(c: Config, w: Worker): nat
    requires ValidConfig(c) && w.x < c.g.n && w.i < |c.g.out[w.x]|
  {
    AddU32(w.val, c.g.out[w.x][w.i].w)
  }

  ghost predicate ValidWorker(c: Config, p: nat, w: Worker)
    requires ValidConfig(c)
  {
    && (forall u :: u in w.queue ==> Owns(c.parts, p, u))
    && (forall u :: u in w.next ==> u < c.g.n)
    && (w.pc.Waiting? || w.pc.Done? ==> w.queue == [])
    && (w.pc.Waiting? ==> w.next == {})
    && (Busy(w) ==> Owns(c.parts, p, w.x) && w.i <= |c.g.out[w.x]| && w.val <= c.init[w.x])
    && (OnEdge(w) ==> w.i < |c.g.out[w.x]| && Offer(c, w) < c.init[Target(c, w)])
  }

  ghost predicate Typed(c: Config, s: State)
    requires ValidConfig(c)
  {
    && |s.vals| == |s.net| == c.replicas
    && |s.workers| == |c.rep|
    && |s.base| == c.g.n
    && (forall r :: 0 <= r < c.replicas ==> |s.vals[r]| == c.g.n)
    && (forall r, v :: 0 <= r < c.replicas && 0 <= v < c.g.n ==> s.vals[r][v] <= c.init[v])
    && (forall p :: 0 <= p < |c.rep| ==> ValidWorker(c, p, s.workers[p]))
    && (forall r, m :: 0 <= r < c.replicas && m in s.net[r] ==> m.v < c.g.n)
    && (forall m :: m in s.sent ==> m.v < c.g.n)
    && (forall v :: v in s.active ==> v < c.g.n)
  }

  /** What worker `p` reads at vertex `v`. */
  function Cell(c: Config, s: State, p: nat, v: nat): nat
    requires ValidConfig(c) && Typed(c, s) && p < |c.rep| && v < c.g.n
  {
    s.vals[c.rep[p]][v]
  }

  datatype Action =
    | Dispatch(p: nat)
    | Pop(p: nat)
    | Check(p: nat)
    | Cas(p: nat)
    | Activate(p: nat)
    | Append(p: nat)
    | Finish(p: nat)
    | Deliver(r: nat, m: Msg)

  predicate Enabled(c: Config, s: State, a: Action)
    requires ValidConfig(c) && Typed(c, s)
  {
    s.active != {} &&
    match a
    case Dispatch(p) => p < |c.rep| && s.workers[p].pc.Waiting?
    case Pop(p) => p < |c.rep| && s.workers[p].pc.Head? && s.workers[p].queue != []
    case Check(p) => p < |c.rep| && s.workers[p].pc.Scan?
    case Cas(p) => p < |c.rep| && s.workers[p].pc.Try?
    case Activate(p) => p < |c.rep| && s.workers[p].pc.Push?
    case Append(p) => p < |c.rep| && s.workers[p].pc.Emit?
    case Finish(p) => p < |c.rep| && s.workers[p].pc.Head? && s.workers[p].queue == []
    case Deliver(r, m) => r < c.replicas && m in s.net[r]
  }

  function WithWorker(s: State, p: nat, w: Worker): State
    requires p < |s.workers|
  {
    s.(workers := s.workers[p := w])
  }

  /** Lower one cell of one replica; the effect of a completed `minCas`. */
  function Lower(vals: seq<seq<nat>>, r: nat, v: nat, y: nat): seq<seq<nat>>
    requires r < |vals| && v < |vals[r]|
  {
    var row: seq<nat> := vals[r][v := y];
    if y < vals[r][v] then vals[r := row] else vals
  }

  /** One copy of the pair to every replica but the sender's. */
  function Broadcast(net: seq<multiset<Msg>>, from: nat, m: Msg): seq<multiset<Msg>> {
    seq(|net|, r requires 0 <= r < |net| => if r == from then net[r] else net[r] + multiset{m})
  }

  /** What a step does to the shared state. */
  function Effect(c: Config, s: State, a: Action): State
    requires ValidConfig(c) && Typed(c, s) && Enabled(c, s, a)
  {
    match a
    case Cas(p) =>
      var w := s.workers[p];
      s.(vals := Lower(s.vals, c.rep[p], Target(c, w), Offer(c, w)))
    case Append(p) =>
      var m := Msg(Target(c, s.workers[p]), Offer(c, s.workers[p]));
      s.(net := Broadcast(s.net, c.rep[p], m), sent := s.sent + {m})
    case Deliver(r, m) =>
      s.(vals := Lower(s.vals, r, m.v, m.y), net := s.net[r := s.net[r] - multiset{m}])
    case _ => s
  }

  /** What becomes of the worker that takes a step. */
  function After(c: Config, s: State, a: Action): Worker
    requires ValidConfig(c) && Typed(c, s) && Enabled(c, s, a) && !a.Deliver?
  {
    var w := s.workers[a.p];
    match a
    case Dispatch(p) =>
      w.(pc := Head, queue := ActiveList(c.parts.start[p], c.parts.size[p], s.active))
    case Pop(p) =>
      assert w.queue[0] in w.queue;
      w.(pc := Scan, queue := w.queue[1..], x := w.queue[0], val := Cell(c, s, p, w.queue[0]), i := 0)
    case Check(p) =>
      if w.i == |c.g.out[w.x]| then w.(pc := Head)
      else if Cell(c, s, p, Target(c, w)) > Offer(c, w) then w.(pc := Try)
      else w.(i := w.i + 1)
    case Cas(p) =>
      if Offer(c, w) < Cell(c, s, p, Target(c, w)) || !c.winnerOnly then w.(pc := Push)
      else w.(pc := Scan, i := w.i + 1)
    case Activate(p) =>
      var t := Target(c, w);
      if Owns(c.parts, p, t) then w.(pc := Emit, queue := w.queue + [t])
      else w.(pc := Emit, next := w.next + {t})
    case Append(p) => w.(pc := Scan, i := w.i + 1)
    case Finish(p) => w.(pc := Done)
  }

  function Apply(c: Config, s: State, a: Action): State
    requires ValidConfig(c) && Typed(c, s) && Enabled(c, s, a)
  {
    if a.Deliver? then Effect(c, s, a) else WithWorker(Effect(c, s, a), a.p, After(c, s, a))
  }

  /** Every worker has finished and every stream has been drained: the coordinator has all replies. */
  predicate RoundOver(s: State) {
    && s.active != {}
    && (forall p :: 0 <= p < |s.workers| ==> s.workers[p].pc.Done?)
    && (forall r :: 0 <= r < |s.net| ==> s.net[r] == multiset{})
  }

  /** The union of the workers' replies. */
  function Replies(ws: seq<Worker>): set<nat> {
    set p, u | 0 <= p < |ws| && u in ws[p].next :: u
  }

  /** The coordinator's barrier: the OR of the replies is the next active set. */
  function EndRound(c: Config, s: State): State
    requires ValidConfig(c) && Typed(c, s)
  {
    State(s.vals, seq(|c.rep|, _ => FRESH), s.net, Replies(s.workers),
          if c.replicas == 0 then s.base else s.vals[0], {}, s.round + 1)
  }

  ghost predicate Next(c: Config, s: State, t: State)
    requires ValidConfig(c) && Typed(c, s)
  {
    || (exists a :: Enabled(c, s, a) && t == Apply(c, s, a))
    || (RoundOver(s) && t == EndRound(c, s))
  }

  /** Between rounds. */
  ghost predicate AtBarrier(s: State) {
    && (forall p :: 0 <= p < |s.workers| ==> s.workers[p].pc.Waiting?)
    && (forall r :: 0 <= r < |s.net| ==> s.net[r] == multiset{})
  }

  /** The coordinator's loop has ended. */
  ghost predicate Exited(s: State) { AtBarrier(s) && s.active == {} }
}
