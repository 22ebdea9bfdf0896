/** What every step of the min-propagation protocol keeps, and what holds when it stops. */
module PropagationSafety {
  import opened Graphs
  import opened Partitions
  import opened MinPropagation

  lemma AfterValid(c: Config, s: State, a: Action)
    requires ValidConfig(c) && Typed(c, s) && Enabled(c, s, a) && !a.Deliver?
    ensures ValidWorker(c, a.p, After(c, s, a))
  {
    if a.Pop? {
      var q := s.workers[a.p].queue;
      assert q[0] in q;
      assert forall u :: u in q[1..] ==> u in q;
    }
  }

  lemma LowerTyped(c: Config, vals: seq<seq<nat>>, r: nat, v: nat, y: nat)
    requires |vals| == c.replicas && r < |vals| && v < c.g.n && |c.init| == c.g.n
    requires forall r :: 0 <= r < |vals| ==> |vals[r]| == c.g.n
    requires forall r, v :: 0 <= r < |vals| && 0 <= v < c.g.n ==> vals[r][v] <= c.init[v]
    ensures var l := Lower(vals, r, v, y);
      && |l| == |vals|
      && (forall r :: 0 <= r < |l| ==> |l[r]| == c.g.n)
      && (forall r, v :: 0 <= r < |l| && 0 <= v < c.g.n ==> l[r][v] <= vals[r][v] <= c.init[v])
      && (forall r', v' :: 0 <= r' < |l| && 0 <= v' < c.g.n && (r' != r || v' != v) ==> l[r'][v'] == vals[r'][v'])
      && l[r][v] == (if y < vals[r][v] then y else vals[r][v])
  {
  }

  lemma EffectTyped(c: Config, s: State, a: Action)
    requires ValidConfig(c) && Typed(c, s) && Enabled(c, s, a)
    ensures Typed(c, Effect(c, s, a))
  {
    match a
    case Cas(p) =>
      LowerTyped(c, s.vals, c.rep[p], Target(c, s.workers[p]), Offer(c, s.workers[p]));
    case Deliver(r, m) =>
      LowerTyped(c, s.vals, r, m.v, m.y);
      assert forall m' :: m' in Effect(c, s, a).net[r] ==> m' in s.net[r];
    case _ =>
  }

  lemma StepTyped(c: Config, s: State, a: Action)
    requires ValidConfig(c) && Typed(c, s) && Enabled(c, s, a)
    ensures Typed(c, Apply(c, s, a))
  {
    EffectTyped(c, s, a);
    if !a.Deliver? { AfterValid(c, s, a); }
  }

  // ---- Soundness: every value anywhere is the price of a walk ----

  ghost predicate RealizedVals(c: Config, vals: seq<seq<nat>>)
    requires ValidConfig(c) && |vals| == c.replicas && forall r :: 0 <= r < |vals| ==> |vals[r]| == c.g.n
  {
    forall r, v :: 0 <= r < c.replicas && 0 <= v < c.g.n ==> Realized(c.g, c.init, v, vals[r][v])
  }

  lemma LowerRealized(c: Config, s: State, r: nat, v: nat, y: nat)
    requires ValidConfig(c) && Typed(c, s) && r < c.replicas && v < c.g.n
    requires RealizedVals(c, s.vals) && Realized(c.g, c.init, v, y)
    ensures var l := Lower(s.vals, r, v, y);
      |l| == c.replicas && (forall r :: 0 <= r < |l| ==> |l[r]| == c.g.n) && RealizedVals(c, l)
  {
    LowerTyped(c, s.vals, r, v, y);
  }

  ghost predicate Sound(c: Config, s: State)
    requires ValidConfig(c) && Typed(c, s)
  {
    && RealizedVals(c, s.vals)
    && (forall p :: 0 <= p < |c.rep| && Busy(s.workers[p]) ==>
          Realized(c.g, c.init, s.workers[p].x, s.workers[p].val))
    && (forall r, m :: 0 <= r < c.replicas && m in s.net[r] ==> Realized(c.g, c.init, m.v, m.y))
  }

  /** uint32 addition does not wrap on any value a worker holds. */
  lemma OfferIsSum(c: Config, p: nat, w: Worker)
    requires ValidConfig(c) && ValidWorker(c, p, w) && Busy(w) && w.i < |c.g.out[w.x]|
    ensures Offer(c, w) == w.val + c.g.out[w.x][w.i].w
  {
    assert HasEdge(c.g, w.x, w.i);
    assert c.init[w.x] + c.g.out[w.x][w.i].w < WORD;
  }

  lemma OfferRealized(c: Config, p: nat, w: Worker)
    requires ValidConfig(c) && ValidWorker(c, p, w) && Busy(w) && w.i < |c.g.out[w.x]|
    requires Realized(c.g, c.init, w.x, w.val)
    ensures Realized(c.g, c.init, Target(c, w), Offer(c, w))
  {
    assert HasEdge(c.g, w.x, w.i);
    OfferIsSum(c, p, w);
    RealizedStep(c.g, c.init, w.x, w.i, w.val);
  }

  lemma AfterSound(c: Config, s: State, a: Action)
    requires ValidConfig(c) && Typed(c, s) && Enabled(c, s, a) && !a.Deliver? && Sound(c, s)
    ensures var w := After(c, s, a); Busy(w) ==> w.x < c.g.n && Realized(c.g, c.init, w.x, w.val)
  {
    AfterValid(c, s, a);
  }

  lemma EffectSound(c: Config, s: State, a: Action)
    requires ValidConfig(c) && Typed(c, s) && Enabled(c, s, a) && Sound(c, s)
    ensures Typed(c, Effect(c, s, a)) && Sound(c, Effect(c, s, a))
  {
    EffectTyped(c, s, a);
    match a
    case Cas(p) =>
      OfferRealized(c, p, s.workers[p]);
      LowerRealized(c, s, c.rep[p], Target(c, s.workers[p]), Offer(c, s.workers[p]));
    case Append(p) => OfferRealized(c, p, s.workers[p]);
    case Deliver(r, m) =>
      LowerRealized(c, s, r, m.v, m.y);
      assert forall m' :: m' in Effect(c, s, a).net[r] ==> m' in s.net[r];
    case _ =>
  }

  lemma StepSound(c: Config, s: State, a: Action)
    requires ValidConfig(c) && Typed(c, s) && Enabled(c, s, a) && Sound(c, s)
    ensures Typed(c, Apply(c, s, a)) && Sound(c, Apply(c, s, a))
  {
    StepTyped(c, s, a);
    EffectSound(c, s, a);
    var t := Apply(c, s, a);
    if !a.Deliver? { AfterSound(c, s, a); }
    forall p | 0 <= p < |c.rep| && Busy(t.workers[p])
      ensures Realized(c.g, c.init, t.workers[p].x, t.workers[p].val)
    {
      if a.Deliver? || p != a.p { assert t.workers[p] == s.workers[p]; }
    }
  }

  // ---- Pending work ----

  /** Worker `q` holds the activation of `u`: in its reply, or about to be placed there. */
  ghost predicate Holds(c: Config, s: State, q: nat, u: nat)
    requires ValidConfig(c) && Typed(c, s)
  {
    && q < |c.rep|
    && (u in s.workers[q].next || (s.workers[q].pc.Push? && Target(c, s.workers[q]) == u))
  }

  /** `u`, owned by `p`, will be scanned again from its current value. */
  ghost predicate Pending(c: Config, s: State, p: nat, u: nat)
    requires ValidConfig(c) && Typed(c, s)
  {
    && p < |c.rep|
    && (|| (s.workers[p].pc.Waiting? && u in s.active)
        || u in s.workers[p].queue
        || exists q: nat :: Holds(c, s, q, u))
  }

  /** Worker `p` is scanning `u` and has yet to pass its `k`-th edge. */
  ghost predicate Scanning(s: State, p: nat, u: nat, k: nat) {
    && p < |s.workers|
    && s.workers[p].x == u
    && (match s.workers[p].pc
        case Scan => s.workers[p].i <= k
        case Try => s.workers[p].i <= k
        case Push => s.workers[p].i < k
        case Emit => s.workers[p].i < k
        case _ => false)
  }

  ghost predicate Relaxed(c: Config, s: State, p: nat, u: nat, k: nat)
    requires ValidConfig(c) && Typed(c, s) && p < |c.rep| && HasEdge(c.g, u, k)
  {
    Cell(c, s, p, c.g.out[u][k].dst) <= Cell(c, s, p, u) + c.g.out[u][k].w
  }

  /** The pending-work invariant: an edge that could still lower its far end has its near end accounted for. */
  ghost predicate WorkPending(c: Config, s: State)
    requires ValidConfig(c) && Typed(c, s)
  {
    forall p: nat, u: nat, k: nat :: Owns(c.parts, p, u) && HasEdge(c.g, u, k) ==>
      Relaxed(c, s, p, u, k) || Pending(c, s, p, u) || Scanning(s, p, u, k)
  }

  /** A worker whose copy of `x` is out of date has `x` pending. */
  ghost predicate StaleIsPending(c: Config, s: State)
    requires ValidConfig(c) && Typed(c, s)
  {
    forall p: nat :: p < |c.rep| && Busy(s.workers[p]) ==>
      s.workers[p].val <= Cell(c, s, p, s.workers[p].x) || Pending(c, s, p, s.workers[p].x)
  }

  ghost predicate InReply(s: State, q: nat, v: nat) {
    q < |s.workers| && v in s.workers[q].next
  }

  /** Whatever is on its way to the owner's replica has been put in some worker's reply. */
  ghost predicate TrafficActivated(c: Config, s: State)
    requires ValidConfig(c) && Typed(c, s)
  {
    && (forall r: nat, m: Msg, p: nat ::
          r < c.replicas && m in s.net[r] && Owns(c.parts, p, m.v) && c.rep[p] == r ==>
          exists q: nat :: InReply(s, q, m.v))
    && (forall q: nat :: q < |c.rep| && s.workers[q].pc.Emit? && !Owns(c.parts, q, Target(c, s.workers[q])) ==>
          InReply(s, q, Target(c, s.workers[q])))
  }

  ghost predicate Accounted(c: Config, s: State)
    requires ValidConfig(c) && Typed(c, s)
  {
    WorkPending(c, s) && StaleIsPending(c, s) && TrafficActivated(c, s)
  }

  lemma HoldsKept(c: Config, s: State, a: Action, p: nat, q: nat, u: nat)
    requires ValidConfig(c) && Typed(c, s) && Enabled(c, s, a) && Typed(c, Apply(c, s, a))
    requires Owns(c.parts, p, u) && Holds(c, s, q, u)
    ensures Holds(c, Apply(c, s, a), q, u) || (p < |c.rep| && u in Apply(c, s, a).workers[p].queue)
  {
    if a == Activate(q) && Owns(c.parts, q, u) && u !in s.workers[q].next { assert p == q; }
  }

  lemma PendingKept(c: Config, s: State, a: Action, p: nat, u: nat)
    requires ValidConfig(c) && Typed(c, s) && Enabled(c, s, a) && Typed(c, Apply(c, s, a))
    requires Owns(c.parts, p, u) && Pending(c, s, p, u)
    requires a == Pop(p) ==> s.workers[p].queue[0] != u
    ensures Pending(c, Apply(c, s, a), p, u)
  {
    if q: nat :| Holds(c, s, q, u) {
      HoldsKept(c, s, a, p, q, u);
    } else if u in s.workers[p].queue {
      if a == Pop(p) { assert u in s.workers[p].queue[1..]; }
    }
  }

  lemma ReplyKept(c: Config, s: State, a: Action, q: nat, v: nat)
    requires ValidConfig(c) && Typed(c, s) && Enabled(c, s, a) && InReply(s, q, v)
    ensures InReply(Apply(c, s, a), q, v)
  {
  }

  lemma MessageActivated(c: Config, s: State, a: Action, r: nat, m: Msg, p: nat)
    requires ValidConfig(c) && Typed(c, s) && Enabled(c, s, a) && TrafficActivated(c, s)
    requires r < c.replicas && m in Apply(c, s, a).net[r] && Owns(c.parts, p, m.v) && c.rep[p] == r
    ensures exists q: nat :: InReply(Apply(c, s, a), q, m.v)
  {
    if m in s.net[r] {
      var q: nat :| InReply(s, q, m.v);
      ReplyKept(c, s, a, q, m.v);
    } else {
      assert a.Append? && m.v == Target(c, s.workers[a.p]) && c.rep[a.p] != r;
      assert InReply(s, a.p, m.v);
      ReplyKept(c, s, a, a.p, m.v);
    }
  }

  lemma EmitterReplied(c: Config, s: State, a: Action, q: nat)
    requires ValidConfig(c) && Typed(c, s) && Enabled(c, s, a) && Typed(c, Apply(c, s, a))
    requires TrafficActivated(c, s) && q < |c.rep| && Apply(c, s, a).workers[q].pc.Emit?
    requires !Owns(c.parts, q, Target(c, Apply(c, s, a).workers[q]))
    ensures InReply(Apply(c, s, a), q, Target(c, Apply(c, s, a).workers[q]))
  {
  }

  lemma StepTraffic(c: Config, s: State, a: Action)
    requires ValidConfig(c) && Typed(c, s) && Enabled(c, s, a) && Typed(c, Apply(c, s, a))
    requires TrafficActivated(c, s)
    ensures TrafficActivated(c, Apply(c, s, a))
  {
    var t := Apply(c, s, a);
    forall r: nat, m: Msg, p: nat |
      r < c.replicas && m in t.net[r] && Owns(c.parts, p, m.v) && c.rep[p] == r
      ensures exists q: nat :: InReply(t, q, m.v)
    {
      MessageActivated(c, s, a, r, m, p);
    }
    forall q: nat | q < |c.rep| && t.workers[q].pc.Emit? && !Owns(c.parts, q, Target(c, t.workers[q]))
      ensures InReply(t, q, Target(c, t.workers[q]))
    {
      EmitterReplied(c, s, a, q);
    }
  }

  /** Values only fall, and when a value falls at the replica its owner reads, the vertex is pending. */
  lemma LoweredIsPending(c: Config, s: State, a: Action, p: nat, u: nat)
    requires ValidConfig(c) && Typed(c, s) && Enabled(c, s, a) && Typed(c, Apply(c, s, a))
    requires TrafficActivated(c, s) && Owns(c.parts, p, u)
    ensures Cell(c, Apply(c, s, a), p, u) <= Cell(c, s, p, u)
    ensures Cell(c, Apply(c, s, a), p, u) < Cell(c, s, p, u) ==> Pending(c, Apply(c, s, a), p, u)
  {
    var t := Apply(c, s, a);
    match a
    case Cas(q) =>
      LowerTyped(c, s.vals, c.rep[q], Target(c, s.workers[q]), Offer(c, s.workers[q]));
      if Cell(c, t, p, u) < Cell(c, s, p, u) {
        assert u == Target(c, s.workers[q]) && Holds(c, t, q, u);
      }
    case Deliver(r, m) =>
      LowerTyped(c, s.vals, r, m.v, m.y);
      if Cell(c, t, p, u) < Cell(c, s, p, u) {
        var q: nat :| InReply(s, q, m.v);
        assert Holds(c, t, q, u);
      }
    case _ =>
  }

  lemma StepStale(c: Config, s: State, a: Action)
    requires ValidConfig(c) && Typed(c, s) && Enabled(c, s, a) && Typed(c, Apply(c, s, a))
    requires TrafficActivated(c, s) && StaleIsPending(c, s)
    ensures StaleIsPending(c, Apply(c, s, a))
  {
    var t := Apply(c, s, a);
    forall p: nat | p < |c.rep| && Busy(t.workers[p])
      ensures t.workers[p].val <= Cell(c, t, p, t.workers[p].x) || Pending(c, t, p, t.workers[p].x)
    {
      if a != Pop(p) {
        var x := s.workers[p].x;
        assert Busy(s.workers[p]) && t.workers[p].x == x && t.workers[p].val == s.workers[p].val;
        LoweredIsPending(c, s, a, p, x);
        if Pending(c, s, p, x) { PendingKept(c, s, a, p, x); }
      }
    }
  }

  /** The one place an edge stops being ahead of the scan: its check failed, or its CAS completed. */
  lemma PassedEdgeRelaxed(c: Config, s: State, a: Action, p: nat, u: nat, k: nat)
    requires ValidConfig(c) && Typed(c, s) && Enabled(c, s, a) && Typed(c, Apply(c, s, a))
    requires Owns(c.parts, p, u) && HasEdge(c.g, u, k)
    requires Scanning(s, p, u, k) && !Scanning(Apply(c, s, a), p, u, k)
    ensures Cell(c, Apply(c, s, a), p, c.g.out[u][k].dst) <= s.workers[p].val + c.g.out[u][k].w
    ensures Cell(c, Apply(c, s, a), p, u) == Cell(c, s, p, u) || Cell(c, Apply(c, s, a), p, u) < Cell(c, s, p, u)
  {
    var w := s.workers[p];
    assert a == Check(p) || a == Cas(p);
    assert w.i == k;
    OfferIsSum(c, p, w);
    if a == Cas(p) {
      LowerTyped(c, s.vals, c.rep[p], Target(c, w), Offer(c, w));
    }
  }

  lemma CellFalls(c: Config, s: State, a: Action, p: nat, v: nat)
    requires ValidConfig(c) && Typed(c, s) && Enabled(c, s, a) && Typed(c, Apply(c, s, a))
    requires p < |c.rep| && v < c.g.n
    ensures Cell(c, Apply(c, s, a), p, v) <= Cell(c, s, p, v)
  {
    match a
    case Cas(q) =>
      LowerTyped(c, s.vals, c.rep[q], Target(c, s.workers[q]), Offer(c, s.workers[q]));
    case Deliver(r, m) =>
      LowerTyped(c, s.vals, r, m.v, m.y);
    case _ =>
  }

  lemma StepWork(c: Config, s: State, a: Action)
    requires ValidConfig(c) && Typed(c, s) && Enabled(c, s, a) && Typed(c, Apply(c, s, a))
    requires Accounted(c, s)
    ensures WorkPending(c, Apply(c, s, a))
  {
    var t := Apply(c, s, a);
    forall p: nat, u: nat, k: nat | Owns(c.parts, p, u) && HasEdge(c.g, u, k)
      ensures Relaxed(c, t, p, u, k) || Pending(c, t, p, u) || Scanning(t, p, u, k)
    {
      LoweredIsPending(c, s, a, p, u);
      CellFalls(c, s, a, p, c.g.out[u][k].dst);
      if Pending(c, s, p, u) {
        if !(a == Pop(p) && s.workers[p].queue[0] == u) { PendingKept(c, s, a, p, u); }
      } else if !Relaxed(c, s, p, u, k) && !Scanning(t, p, u, k) {
        PassedEdgeRelaxed(c, s, a, p, u, k);
      }
    }
  }
}
