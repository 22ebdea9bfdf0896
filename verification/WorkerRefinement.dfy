/** One partition worker's round as a loop over its array, worklist, reply bitmap and send buffer, stepping the
    protocol along: every access to shared data is one protocol step, taken while everybody else takes any steps of
    theirs in between. Whatever the loop does is part of a run, so what holds of every run holds of the loop. */
module WorkerRefinement {
  import opened Graphs
  import opened Partitions
  import opened Sums
  import opened Framing
  import opened Bitmaps
  import opened ActiveSets
  import opened MinPropagation
  import opened PropagationRuns
  import opened PropagationTermination

  /** The measure of a round has not grown. */
  ghost predicate NoMore(c: Config, s: State, t: State)
    requires ValidConfig(c) && Typed(c, s) && Typed(c, t)
  {
    s == t || Shrinks(c, s, t)
  }

  /** A step of somebody else: of another worker, or of the network. */
  predicate Others(p: nat, a: Action) { a.Deliver? || a.p != p }

  lemma SentStays(c: Config, s: State, a: Action)
    requires ValidConfig(c) && Typed(c, s) && Enabled(c, s, a)
    ensures s.sent <= Apply(c, s, a).sent && Apply(c, s, a).active == s.active
  {
  }

  lemma NoMoreTwice(c: Config, s: State, t: State, u: State)
    requires ValidConfig(c) && Typed(c, s) && Typed(c, t) && Typed(c, u) && NoMore(c, s, t) && NoMore(c, t, u)
    ensures NoMore(c, s, u) && (Shrinks(c, s, t) || Shrinks(c, t, u) ==> Shrinks(c, s, u))
  {
  }

  lemma OthersLeave(c: Config, s: State, a: Action, p: nat)
    requires ValidConfig(c) && Typed(c, s) && Enabled(c, s, a) && Others(p, a) && p < |c.rep|
    ensures p < |Apply(c, s, a).workers| && Apply(c, s, a).workers[p] == s.workers[p] && Apply(c, s, a).active == s.active
  {
  }

  /** Everything the worker does not hold itself: the protocol's state, and what the others will do next, in batches.
      `p` is the worker's partition. */
  class World {
    const c: Config
    const p: nat
    var s: State
    var plan: seq<seq<Action>>
    ghost var trace: seq<State>

    ghost predicate Ok()
      reads this
    {
      ValidConfig(c) && p < |c.rep| && Typed(c, s) && s.active != {} && OnRun(c, trace, s)
    }

    /** `vals` is the replica of the vertex array that the worker works on. */
    ghost predicate Shows(vals: array<nat>)
      requires Ok()
      reads this, vals
    {
      vals[..] == s.vals[c.rep[p]]
    }

    constructor (c: Config, p: nat, s: State, plan: seq<seq<Action>>, ghost trace: seq<State>)
      requires ValidConfig(c) && p < |c.rep| && Typed(c, s) && s.active != {} && OnRun(c, trace, s)
      ensures Ok() && this.c == c && this.p == p && this.s == s && this.trace == trace
    {
      this.c, this.p, this.s, this.plan, this.trace := c, p, s, plan, trace;
    }

    /** A step of the worker that leaves the array alone. */
    method Step(a: Action)
      requires Ok() && Enabled(c, s, a) && !a.Cas? && !a.Deliver?
      modifies this`s, this`trace
      ensures Ok() && s == Apply(c, old(s), a) && s.vals == old(s.vals) && old(s.sent) <= s.sent
      ensures Shrinks(c, old(s), s) && trace == old(trace) + [s]
    {
      SentStays(c, s, a);
      RunOn(c, trace, s, a);
      s := Apply(c, s, a);
      trace := trace + [s];
    }

    /** The completed CAS of the worker at its current edge. */
    method MinCas(vals: array<nat>, v: nat, y: nat) returns (won: bool)
      requires Ok() && Shows(vals) && s.workers[p].pc.Try?
      requires v == Target(c, s.workers[p]) && y == Offer(c, s.workers[p])
      modifies this`s, this`trace, vals
      ensures Ok() && Shows(vals) && s == Apply(c, old(s), Cas(p))
      ensures (won <==> y < old(vals[..])[v]) && old(s.sent) <= s.sent
      ensures Shrinks(c, old(s), s) && trace == old(trace) + [s]
    {
      SentStays(c, s, Cas(p));
      RunOn(c, trace, s, Cas(p));
      s := Apply(c, s, Cas(p));
      trace := trace + [s];
      won := y < vals[v];
      if won { vals[v] := y; }
    }

    /** One step of somebody else, if it can be taken. */
    method OneOther(vals: array<nat>, a: Action)
      requires Ok() && Shows(vals)
      modifies this`s, this`trace, vals
      ensures Ok() && Shows(vals) && s.workers[p] == old(s.workers[p]) && s.active == old(s.active)
      ensures NoMore(c, old(s), s) && old(s.sent) <= s.sent && old(trace) <= trace
    {
      if Enabled(c, s, a) && Others(p, a) {
        RunOn(c, trace, s, a);
        OthersLeave(c, s, a, p);
        SentStays(c, s, a);
        s := Apply(c, s, a);
        trace := trace + [s];
        forall v | 0 <= v < vals.Length { vals[v] := s.vals[c.rep[p]][v]; }
      }
    }

    method Interfere(vals: array<nat>)
      requires Ok() && Shows(vals)
      modifies this`s, this`plan, this`trace, vals
      ensures Ok() && Shows(vals) && s.workers[p] == old(s.workers[p]) && s.active == old(s.active)
      ensures NoMore(c, old(s), s) && old(s.sent) <= s.sent && old(trace) <= trace
    {
      if plan != [] {
        var batch := plan[0];
        plan := plan[1..];
        for i := 0 to |batch|
          invariant Ok() && Shows(vals) && s.workers[p] == old(s.workers[p]) && s.active == old(s.active)
          invariant NoMore(c, old(s), s) && old(s.sent) <= s.sent && old(trace) <= trace
        {
          OneOther(vals, batch[i]);
        }
      }
    }
  }

  // ---- The loop ----

  lemma SizeFits(c: Config, p: nat)
    requires ValidConfig(c) && p < |c.rep|
    ensures c.parts.size[p] > 0 ==> c.parts.start[p] + c.parts.size[p] <= c.g.n
  {
    if c.parts.size[p] > 0 { assert Owns(c.parts, p, c.parts.start[p] + c.parts.size[p] - 1); }
  }

  /** The worker of the protocol is where the loop is. */
  ghost predicate Mirrors(world: World, pc: Pc, queue: seq<nat>, reply: Bitmap, x: nat, val: nat, i: nat)
    requires world.Ok()
    reads world, reply.words
  {
    world.s.workers[world.p] == Worker(pc, queue, reply.Contents(), x, val, i)
  }

  ghost predicate Ready(world: World, vals: array<nat>, reply: Bitmap, buf: SendBuffer)
    reads world, vals, reply.words, buf
  {
    && world.Ok() && world.Shows(vals) && reply.words != vals
    && reply.Valid() && world.c.g.n <= 32 * reply.words.Length && buf.Valid()
  }

  /** The protocol's state and history, and what the worker has appended. */
  datatype Moment = Moment(s: State, trace: seq<State>, sent: seq<Pair>)

  /** From `a` to `b` the protocol has gone on, the worker has appended `pairs`, and they have been broadcast. */
  ghost predicate Onward(c: Config, a: Moment, b: Moment, pairs: seq<Pair>)
    requires ValidConfig(c) && Typed(c, a.s) && Typed(c, b.s)
  {
    && NoMore(c, a.s, b.s) && a.trace <= b.trace && a.s.sent <= b.s.sent
    && b.sent == a.sent + pairs && forall q :: q in pairs ==> Msg(q.v, q.y) in b.s.sent
  }

  lemma OnwardTwice(c: Config, a: Moment, b: Moment, d: Moment, pairs: seq<Pair>, more: seq<Pair>)
    requires ValidConfig(c) && Typed(c, a.s) && Typed(c, b.s) && Typed(c, d.s)
    requires Onward(c, a, b, pairs) && Onward(c, b, d, more)
    ensures Onward(c, a, d, pairs + more)
    ensures Shrinks(c, a.s, b.s) || Shrinks(c, b.s, d.s) ==> Shrinks(c, a.s, d.s)
  {
    NoMoreTwice(c, a.s, b.s, d.s);
    assert a.sent + (pairs + more) == (a.sent + pairs) + more;
  }

  /** Queue the target when it is the worker's own, report it when it is not. */
  method Enlist(world: World, v: nat, queue: seq<nat>, vals: array<nat>, reply: Bitmap, buf: SendBuffer,
                ghost x: nat, ghost val: nat, ghost i: nat) returns (queue': seq<nat>)
    requires Ready(world, vals, reply, buf) && Mirrors(world, Push, queue, reply, x, val, i)
    requires v == Target(world.c, world.s.workers[world.p])
    modifies world`s, world`trace, reply.words
    ensures Ready(world, vals, reply, buf) && Mirrors(world, Emit, queue', reply, x, val, i)
    ensures Onward(world.c, old(Moment(world.s, world.trace, buf.Contents())),
                   Moment(world.s, world.trace, buf.Contents()), [])
  {
    queue' := queue;
    if Owns(world.c.parts, world.p, v) { queue' := queue + [v]; } else { reply.Add(v); }
    world.Step(Activate(world.p));
  }

  /** The others get to work. */
  method Pause(world: World, vals: array<nat>, reply: Bitmap, buf: SendBuffer)
    requires Ready(world, vals, reply, buf)
    modifies world`s, world`plan, world`trace, vals
    ensures Ready(world, vals, reply, buf) && world.s.workers[world.p] == old(world.s.workers[world.p])
    ensures Onward(world.c, old(Moment(world.s, world.trace, buf.Contents())),
                   Moment(world.s, world.trace, buf.Contents()), [])
  {
    world.Interfere(vals);
  }

  /** Then append the pair; the protocol broadcasts it. */
  method Post(world: World, v: nat, y: nat, queue: seq<nat>, vals: array<nat>, reply: Bitmap, buf: SendBuffer,
              ghost x: nat, ghost val: nat, ghost i: nat)
    requires Ready(world, vals, reply, buf) && Mirrors(world, Emit, queue, reply, x, val, i)
    requires v == Target(world.c, world.s.workers[world.p]) && y == Offer(world.c, world.s.workers[world.p])
    modifies world`s, world`plan, world`trace, vals, buf
    ensures Ready(world, vals, reply, buf) && Mirrors(world, Scan, queue, reply, x, val, i + 1)
    ensures Onward(world.c, old(Moment(world.s, world.trace, buf.Contents())),
                   Moment(world.s, world.trace, buf.Contents()), [Pair(v, y)])
  {
    ghost var first := Moment(world.s, world.trace, buf.Contents());
    Pause(world, vals, reply, buf);
    ghost var second := Moment(world.s, world.trace, buf.Contents());
    buf.Append(v, y);
    world.Step(Append(world.p));
    OnwardTwice(world.c, first, second, Moment(world.s, world.trace, buf.Contents()), [], [Pair(v, y)]);
  }

  /** The check of an edge. */
  method Check(world: World, v: nat, y: nat, queue: seq<nat>, vals: array<nat>, reply: Bitmap, buf: SendBuffer,
               ghost x: nat, ghost val: nat, ghost i: nat) returns (passed: bool)
    requires Ready(world, vals, reply, buf) && Mirrors(world, Scan, queue, reply, x, val, i)
    requires HasEdge(world.c.g, x, i) && v == world.c.g.out[x][i].dst && y == AddU32(val, world.c.g.out[x][i].w)
    modifies world`s, world`plan, world`trace, vals
    ensures Ready(world, vals, reply, buf)
    ensures if passed then Mirrors(world, Try, queue, reply, x, val, i) else Mirrors(world, Scan, queue, reply, x, val, i + 1)
    ensures Onward(world.c, old(Moment(world.s, world.trace, buf.Contents())),
                   Moment(world.s, world.trace, buf.Contents()), [])
    ensures Shrinks(world.c, old(world.s), world.s)
  {
    ghost var first := Moment(world.s, world.trace, buf.Contents());
    Pause(world, vals, reply, buf);
    ghost var second := Moment(world.s, world.trace, buf.Contents());
    passed := vals[v] > y;
    world.Step(Action.Check(world.p));
    OnwardTwice(world.c, first, second, Moment(world.s, world.trace, buf.Contents()), [], []);
  }

  /** The CAS after a passed check. */
  method Aggregate(world: World, v: nat, y: nat, queue: seq<nat>, vals: array<nat>, reply: Bitmap, buf: SendBuffer,
                   ghost x: nat, ghost val: nat, ghost i: nat) returns (won: bool)
    requires Ready(world, vals, reply, buf) && Mirrors(world, Try, queue, reply, x, val, i)
    requires v == Target(world.c, world.s.workers[world.p]) && y == Offer(world.c, world.s.workers[world.p])
    modifies world`s, world`plan, world`trace, vals
    ensures Ready(world, vals, reply, buf)
    ensures if won || !world.c.winnerOnly then Mirrors(world, Push, queue, reply, x, val, i)
            else Mirrors(world, Scan, queue, reply, x, val, i + 1)
    ensures Onward(world.c, old(Moment(world.s, world.trace, buf.Contents())),
                   Moment(world.s, world.trace, buf.Contents()), [])
  {
    ghost var first := Moment(world.s, world.trace, buf.Contents());
    Pause(world, vals, reply, buf);
    ghost var second := Moment(world.s, world.trace, buf.Contents());
    won := world.MinCas(vals, v, y);
    OnwardTwice(world.c, first, second, Moment(world.s, world.trace, buf.Contents()), [], []);
  }

  lemma TargetOf(c: Config, w: Worker)
    requires ValidConfig(c) && w.x < c.g.n && w.i < |c.g.out[w.x]|
    ensures HasEdge(c.g, w.x, w.i) && Target(c, w) == c.g.out[w.x][w.i].dst && Offer(c, w) == AddU32(w.val, c.g.out[w.x][w.i].w)
  {
    assert HasEdge(c.g, w.x, w.i);
  }

  /** What follows a passed check. */
  method Take(world: World, v: nat, y: nat, queue: seq<nat>, vals: array<nat>, reply: Bitmap, buf: SendBuffer,
              ghost x: nat, ghost val: nat, ghost i: nat) returns (queue': seq<nat>, ghost pairs: seq<Pair>)
    requires Ready(world, vals, reply, buf) && Mirrors(world, Try, queue, reply, x, val, i)
    requires v == Target(world.c, world.s.workers[world.p]) && y == Offer(world.c, world.s.workers[world.p])
    modifies world`s, world`plan, world`trace, vals, reply.words, buf
    ensures Ready(world, vals, reply, buf) && Mirrors(world, Scan, queue', reply, x, val, i + 1)
    ensures Onward(world.c, old(Moment(world.s, world.trace, buf.Contents())),
                   Moment(world.s, world.trace, buf.Contents()), pairs)
  {
    ghost var first := Moment(world.s, world.trace, buf.Contents());
    queue', pairs := queue, [];
    var won := Aggregate(world, v, y, queue, vals, reply, buf, x, val, i);
    if won || !world.c.winnerOnly {
      ghost var before := Moment(world.s, world.trace, buf.Contents());
      Pause(world, vals, reply, buf);
      ghost var second := Moment(world.s, world.trace, buf.Contents());
      OnwardTwice(world.c, first, before, second, [], []);
      queue' := Enlist(world, v, queue, vals, reply, buf, x, val, i);
      ghost var third := Moment(world.s, world.trace, buf.Contents());
      OnwardTwice(world.c, first, second, third, [], []);
      Post(world, v, y, queue', vals, reply, buf, x, val, i);
      pairs := [Pair(v, y)];
      OnwardTwice(world.c, first, third, Moment(world.s, world.trace, buf.Contents()), [], pairs);
    }
  }

  /** One edge. */
  method ScanEdge(world: World, x: nat, val: nat, i: nat, queue: seq<nat>, vals: array<nat>, reply: Bitmap, buf: SendBuffer)
    returns (queue': seq<nat>, ghost pairs: seq<Pair>)
    requires Ready(world, vals, reply, buf) && Mirrors(world, Scan, queue, reply, x, val, i) && HasEdge(world.c.g, x, i)
    modifies world`s, world`plan, world`trace, vals, reply.words, buf
    ensures Ready(world, vals, reply, buf) && Mirrors(world, Scan, queue', reply, x, val, i + 1)
    ensures Onward(world.c, old(Moment(world.s, world.trace, buf.Contents())),
                   Moment(world.s, world.trace, buf.Contents()), pairs)
  {
    ghost var first := Moment(world.s, world.trace, buf.Contents());
    queue', pairs := queue, [];
    var v, y := world.c.g.out[x][i].dst, AddU32(val, world.c.g.out[x][i].w);
    var passed := Check(world, v, y, queue, vals, reply, buf, x, val, i);
    if passed {
      ghost var second := Moment(world.s, world.trace, buf.Contents());
      TargetOf(world.c, world.s.workers[world.p]);
      queue', pairs := Take(world, v, y, queue, vals, reply, buf, x, val, i);
      OnwardTwice(world.c, first, second, Moment(world.s, world.trace, buf.Contents()), [], pairs);
    }
  }

  /** The edge loop. */
  method ScanVertex(world: World, x: nat, val: nat, queue: seq<nat>, vals: array<nat>, reply: Bitmap, buf: SendBuffer)
    returns (queue': seq<nat>, ghost pairs: seq<Pair>)
    requires Ready(world, vals, reply, buf) && x < world.c.g.n && Mirrors(world, Scan, queue, reply, x, val, 0)
    modifies world`s, world`plan, world`trace, vals, reply.words, buf
    ensures Ready(world, vals, reply, buf) && Mirrors(world, Head, queue', reply, x, val, |world.c.g.out[x]|)
    ensures Onward(world.c, old(Moment(world.s, world.trace, buf.Contents())),
                   Moment(world.s, world.trace, buf.Contents()), pairs)
  {
    queue', pairs := queue, [];
    ghost var first := Moment(world.s, world.trace, buf.Contents());
    for i := 0 to |world.c.g.out[x]|
      invariant Ready(world, vals, reply, buf) && Mirrors(world, Scan, queue', reply, x, val, i)
      invariant Onward(world.c, first, Moment(world.s, world.trace, buf.Contents()), pairs)
    {
      ghost var second, more := Moment(world.s, world.trace, buf.Contents()), [];
      queue', more := ScanEdge(world, x, val, i, queue', vals, reply, buf);
      OnwardTwice(world.c, first, second, Moment(world.s, world.trace, buf.Contents()), pairs, more);
      pairs := pairs + more;
    }
    ghost var second := Moment(world.s, world.trace, buf.Contents());
    world.Step(Action.Check(world.p));
    OnwardTwice(world.c, first, second, Moment(world.s, world.trace, buf.Contents()), pairs, []);
    assert pairs + [] == pairs;
  }

  /** At the head of the worklist loop, wherever the last scan ended. */
  ghost predicate AtHead(world: World, queue: seq<nat>, reply: Bitmap)
    requires world.Ok()
    reads world, reply.words
  {
    var w := world.s.workers[world.p];
    w.pc.Head? && w.queue == queue && w.next == reply.Contents()
  }

  /** One turn of the worklist loop: pop a vertex, read its value, scan its edges. */
  method Turn(world: World, queue: seq<nat>, vals: array<nat>, reply: Bitmap, buf: SendBuffer)
    returns (queue': seq<nat>, ghost pairs: seq<Pair>)
    requires Ready(world, vals, reply, buf) && AtHead(world, queue, reply) && queue != []
    modifies world`s, world`plan, world`trace, vals, reply.words, buf
    ensures Ready(world, vals, reply, buf) && AtHead(world, queue', reply)
    ensures Onward(world.c, old(Moment(world.s, world.trace, buf.Contents())),
                   Moment(world.s, world.trace, buf.Contents()), pairs)
    ensures Shrinks(world.c, old(world.s), world.s)
  {
    ghost var first := Moment(world.s, world.trace, buf.Contents());
    Pause(world, vals, reply, buf);
    ghost var second := Moment(world.s, world.trace, buf.Contents());
    assert queue[0] in world.s.workers[world.p].queue;
    var x, val := queue[0], vals[queue[0]];
    world.Step(Pop(world.p));
    ghost var third := Moment(world.s, world.trace, buf.Contents());
    OnwardTwice(world.c, first, second, third, [], []);
    queue', pairs := ScanVertex(world, x, val, queue[1..], vals, reply, buf);
    OnwardTwice(world.c, first, third, Moment(world.s, world.trace, buf.Contents()), [], pairs);
    assert [] + pairs == pairs;
  }

  /** The worklist loop ends, whatever the others do. */
  method Drain(world: World, queue: seq<nat>, vals: array<nat>, reply: Bitmap, buf: SendBuffer) returns (ghost pairs: seq<Pair>)
    requires Ready(world, vals, reply, buf) && AtHead(world, queue, reply)
    modifies world`s, world`plan, world`trace, vals, reply.words, buf
    ensures Ready(world, vals, reply, buf) && AtHead(world, [], reply)
    ensures Onward(world.c, old(Moment(world.s, world.trace, buf.Contents())),
                   Moment(world.s, world.trace, buf.Contents()), pairs)
  {
    var rest := queue;
    pairs := [];
    ghost var first := Moment(world.s, world.trace, buf.Contents());
    while |rest| > 0
      invariant Ready(world, vals, reply, buf) && AtHead(world, rest, reply)
      invariant Onward(world.c, first, Moment(world.s, world.trace, buf.Contents()), pairs)
      decreases Heights(world.s), Sum(Debts(world.c, world.s)), Pace(world.c, world.s)
    {
      ghost var second, more := Moment(world.s, world.trace, buf.Contents()), [];
      rest, more := Turn(world, rest, vals, reply, buf);
      OnwardTwice(world.c, first, second, Moment(world.s, world.trace, buf.Contents()), pairs, more);
      pairs := pairs + more;
    }
  }

  /** The worklist is read off the broadcast active set. */
  method Begin(world: World, active: Bitmap, vals: array<nat>, reply: Bitmap, buf: SendBuffer) returns (queue: seq<nat>)
    requires Ready(world, vals, reply, buf) && reply.Contents() == {} && world.s.workers[world.p].pc.Waiting?
    requires active.Valid() && world.c.g.n <= 32 * active.words.Length && active.Contents() == world.s.active
    modifies world`s, world`trace
    ensures Ready(world, vals, reply, buf) && AtHead(world, queue, reply)
    ensures Onward(world.c, old(Moment(world.s, world.trace, buf.Contents())),
                   Moment(world.s, world.trace, buf.Contents()), [])
  {
    SizeFits(world.c, world.p);
    queue := ScanActive(active, world.c.parts.start[world.p], world.c.parts.size[world.p]);
    world.Step(Dispatch(world.p));
  }

  /** The worklist is empty: the reply is complete. */
  method End(world: World, vals: array<nat>, reply: Bitmap, buf: SendBuffer)
    requires Ready(world, vals, reply, buf) && AtHead(world, [], reply)
    modifies world`s, world`trace
    ensures Ready(world, vals, reply, buf)
    ensures world.s.workers[world.p].pc.Done? && world.s.workers[world.p].next == reply.Contents()
    ensures Onward(world.c, old(Moment(world.s, world.trace, buf.Contents())),
                   Moment(world.s, world.trace, buf.Contents()), [])
  {
    world.Step(Action.Finish(world.p));
  }

  /** A worker's whole round, from the broadcast active set to its reply: the loop ends; by `Ready` the history up to now
      is still a run of the protocol and the array still the worker's replica in it; in that run the worker is now done,
      its reply is the bitmap, and every pair appended to the buffer has been broadcast. */
  method RunRound(world: World, active: Bitmap, vals: array<nat>, reply: Bitmap, buf: SendBuffer) returns (ghost pairs: seq<Pair>)
    requires Ready(world, vals, reply, buf) && reply.Contents() == {} && world.s.workers[world.p].pc.Waiting?
    requires active.Valid() && world.c.g.n <= 32 * active.words.Length && active.Contents() == world.s.active
    requires active.words != vals && active.words != reply.words
    modifies world`s, world`plan, world`trace, vals, reply.words, buf
    ensures Ready(world, vals, reply, buf)
    ensures world.s.workers[world.p].pc.Done? && world.s.workers[world.p].next == reply.Contents()
    ensures Onward(world.c, old(Moment(world.s, world.trace, buf.Contents())),
                   Moment(world.s, world.trace, buf.Contents()), pairs)
  {
    ghost var first := Moment(world.s, world.trace, buf.Contents());
    var queue := Begin(world, active, vals, reply, buf);
    ghost var second := Moment(world.s, world.trace, buf.Contents());
    pairs := Drain(world, queue, vals, reply, buf);
    ghost var third := Moment(world.s, world.trace, buf.Contents());
    OnwardTwice(world.c, first, second, third, [], pairs);
    End(world, vals, reply, buf);
    OnwardTwice(world.c, first, third, Moment(world.s, world.trace, buf.Contents()), [] + pairs, []);
    assert [] + pairs + [] == pairs;
  }
}
