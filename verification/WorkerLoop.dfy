/** One partition worker's `Calc` loop on its real data: the shared vertex array, its worklist, its reply
    bitmap and its send buffer, with the other workers and the network interfering between any two
    accesses to the array. */
module WorkerLoop {
  import opened Graphs
  import opened Partitions
  import opened Sums
  import opened Framing
  import opened Bitmaps
  import opened MinPropagation

  /** Every cell holds the price of some walk. */
  ghost predicate Priced(g: Graph, init: seq<nat>, vals: seq<nat>)
    requires WellFormed(g)
  {
    |init| == |vals| == g.n && forall v: nat :: v < g.n ==> Realized(g, init, v, vals[v])
  }

  ghost predicate Sound(g: Graph, init: seq<nat>, p: Pair)
    requires WellFormed(g)
  {
    |init| == g.n && (p.v < g.n ==> Realized(g, init, p.v, p.y))
  }

  /** Everybody else working on the same array. All they ever do to it is lower cells, to prices of walks;
      `moves` lists the lowerings still to come, batch by batch. */
  class Others {
    var moves: seq<seq<Pair>>
    /** The vertices they have lowered so far. */
    ghost var touched: set<nat>
    ghost const g: Graph
    ghost const init: seq<nat>

    ghost predicate Honest()
      reads this
    {
      WellFormed(g) && forall b, p :: b in moves && p in b ==> Sound(g, init, p)
    }

    constructor (moves: seq<seq<Pair>>, ghost g: Graph, ghost init: seq<nat>)
      requires WellFormed(g) && forall b, p :: b in moves && p in b ==> Sound(g, init, p)
      ensures this.moves == moves && this.g == g && this.init == init && Honest()
    {
      this.moves, this.g, this.init, this.touched := moves, g, init, {};
    }

    method Interfere(vals: array<nat>)
      requires Honest() && Priced(g, init, vals[..])
      modifies this`moves, this`touched, vals
      ensures Honest() && Priced(g, init, vals[..])
      ensures forall v :: 0 <= v < vals.Length ==> vals[v] <= old(vals[v])
      ensures old(touched) <= touched && forall v :: 0 <= v < vals.Length && vals[v] < old(vals[v]) ==> v in touched
    {
      if moves != [] {
        var batch := moves[0];
        assert batch in moves;
        moves := moves[1..];
        for i := 0 to |batch|
          invariant Honest() && Priced(g, init, vals[..]) && old(touched) <= touched
          invariant forall v :: 0 <= v < vals.Length ==> vals[v] <= old(vals[v]) && (vals[v] < old(vals[v]) ==> v in touched)
        {
          assert batch[i] in batch && Sound(g, init, batch[i]);
          if batch[i].v < vals.Length && batch[i].y < vals[batch[i].v] {
            vals[batch[i].v] := batch[i].y;
            touched := touched + {batch[i].v};
          }
        }
      }
    }
  }

  /** A completed `minCas`, as one atomic operation. */
  method MinCas(vals: array<nat>, v: nat, y: nat) returns (won: bool)
    requires v < vals.Length
    modifies vals
    ensures won <==> y < old(vals[v])
    ensures vals[v] == if won then y else old(vals[v])
    ensures forall u :: 0 <= u < vals.Length && u != v ==> vals[u] == old(vals[u])
  {
    won := y < vals[v];
    if won { vals[v] := y; }
  }

  /** Every edge of `x` has been offered a value no higher than `y` plus its weight. */
  ghost predicate Expanded(g: Graph, vals: seq<nat>, x: nat, y: nat)
    requires WellFormed(g) && |vals| == g.n
  {
    x < g.n && forall k: nat :: HasEdge(g, x, k) ==> vals[g.out[x][k].dst] <= y + g.out[x][k].w
  }

  /** The vertex being scanned, and the value it was read with. */
  datatype Now = Nothing | Expanding(x: nat, val: nat)

  /** `x` has been, is being, or will be expanded from a value at most `y`. */
  ghost predicate WillExpand(g: Graph, vals: seq<nat>, queue: seq<nat>, now: Now, x: nat, y: nat)
    requires WellFormed(g) && |vals| == g.n
  {
    && x < g.n
    && (|| (x in queue && vals[x] <= y)
        || (now.Expanding? && now.x == x && now.val <= y)
        || Expanded(g, vals, x, y))
  }

  /** What the worker owes an accepted pair: its cell is at most the offer, and its vertex gets expanded
      when it is the worker's own, and is in the reply when it is not. */
  ghost predicate Handled(g: Graph, vals: seq<nat>, queue: seq<nat>, now: Now, reply: set<nat>,
                          start: nat, size: nat, p: Pair)
    requires WellFormed(g) && |vals| == g.n
  {
    && p.v < g.n && vals[p.v] <= p.y
    && (if Local(start, size, p.v) then WillExpand(g, vals, queue, now, p.v, p.y) else p.v in reply)
  }

  ghost predicate AllHandled(g: Graph, vals: seq<nat>, queue: seq<nat>, now: Now, reply: set<nat>,
                             start: nat, size: nat, owed: seq<Pair>)
    requires WellFormed(g) && |vals| == g.n
  {
    forall p :: p in owed ==> Handled(g, vals, queue, now, reply, start, size, p)
  }

  lemma HandledKept(g: Graph, before: seq<nat>, after: seq<nat>, queue: seq<nat>, longer: seq<nat>, now: Now,
                    reply: set<nat>, larger: set<nat>, start: nat, size: nat, owed: seq<Pair>)
    requires WellFormed(g) && |before| == g.n && Fallen(before, after)
    requires AllHandled(g, before, queue, now, reply, start, size, owed)
    requires (forall x :: x in queue ==> x in longer) && reply <= larger
    ensures AllHandled(g, after, longer, now, larger, start, size, owed)
  {
    forall p | p in owed
      ensures Handled(g, after, longer, now, larger, start, size, p)
    {
      assert Handled(g, before, queue, now, reply, start, size, p);
      if Expanded(g, before, p.v, p.y) { assert Expanded(g, after, p.v, p.y); }
    }
  }

  lemma Popped(g: Graph, vals: seq<nat>, queue: seq<nat>, reply: set<nat>, start: nat, size: nat, owed: seq<Pair>)
    requires WellFormed(g) && |vals| == g.n && queue != [] && queue[0] < g.n
    requires AllHandled(g, vals, queue, Nothing, reply, start, size, owed)
    ensures AllHandled(g, vals, queue[1..], Expanding(queue[0], vals[queue[0]]), reply, start, size, owed)
  {
    forall p | p in owed
      ensures Handled(g, vals, queue[1..], Expanding(queue[0], vals[queue[0]]), reply, start, size, p)
    {
      assert Handled(g, vals, queue, Nothing, reply, start, size, p);
      assert p.v in queue ==> p.v == queue[0] || p.v in queue[1..];
    }
  }

  lemma Scanned(g: Graph, vals: seq<nat>, queue: seq<nat>, x: nat, val: nat, reply: set<nat>,
                start: nat, size: nat, owed: seq<Pair>)
    requires WellFormed(g) && |vals| == g.n && Expanded(g, vals, x, val)
    requires AllHandled(g, vals, queue, Expanding(x, val), reply, start, size, owed)
    ensures AllHandled(g, vals, queue, Nothing, reply, start, size, owed)
  {
    forall p | p in owed
      ensures Handled(g, vals, queue, Nothing, reply, start, size, p)
    {
      assert Handled(g, vals, queue, Expanding(x, val), reply, start, size, p);
      if p.v == x && val <= p.y { assert Expanded(g, vals, p.v, p.y); }
    }
  }

  ghost predicate AddsFit(g: Graph, vals: seq<nat>)
    requires WellFormed(g) && |vals| == g.n
  {
    forall u: nat, k: nat, v: nat :: HasEdge(g, u, k) && v < g.n ==> vals[v] + g.out[u][k].w < WORD
  }

  /** The vertices of the pairs that went to other partitions. */
  ghost function Foreign(start: nat, size: nat, pairs: seq<Pair>): set<nat> {
    set p | p in pairs && !Local(start, size, p.v) :: p.v
  }

  ghost predicate Locals(start: nat, size: nat, queue: seq<nat>) {
    forall u :: u in queue ==> Local(start, size, u)
  }

  /** What the worker's loop changes outside its worklist: the cells, its reply, and what it has appended. */
  datatype View = View(vals: seq<nat>, reply: set<nat>, sent: seq<Pair>)

  /** From `a` to `b` cells have only fallen, `pairs` were appended, and the reply gained exactly their
      foreign vertices. */
  ghost predicate Advances(start: nat, size: nat, a: View, b: View, pairs: seq<Pair>) {
    && Fallen(a.vals, b.vals)
    && b.sent == a.sent + pairs
    && b.reply == a.reply + Foreign(start, size, pairs)
  }

  lemma AdvancesTwice(start: nat, size: nat, a: View, b: View, c: View, pairs: seq<Pair>, more: seq<Pair>)
    requires Advances(start, size, a, b, pairs) && Advances(start, size, b, c, more)
    ensures Advances(start, size, a, c, pairs + more)
  {
    assert Foreign(start, size, pairs + more) == Foreign(start, size, pairs) + Foreign(start, size, more);
    assert a.sent + (pairs + more) == (a.sent + pairs) + more;
  }

  lemma AdvancesNot(start: nat, size: nat, a: View)
    ensures Advances(start, size, a, a, [])
  {
    assert a.sent + [] == a.sent && Foreign(start, size, []) == {};
  }

  /** The worklist is the same, or a cell has fallen. */
  ghost predicate Paid(before: seq<nat>, after: seq<nat>, queue: seq<nat>, queue': seq<nat>) {
    queue' == queue || Sum(after) < Sum(before)
  }

  lemma PaidTwice(a: seq<nat>, b: seq<nat>, c: seq<nat>, p: seq<nat>, q: seq<nat>, r: seq<nat>)
    requires Fallen(a, b) && Fallen(b, c) && Paid(a, b, p, q) && Paid(b, c, q, r)
    ensures Paid(a, c, p, r) && Sum(c) <= Sum(b)
  {
    SumFalls(a, b);
    SumFalls(b, c);
  }

  ghost predicate Ready(g: Graph, start: nat, size: nat, vals: array<nat>, reply: Bitmap, buf: SendBuffer, others: Others)
    reads vals, reply.words, buf, others
  {
    && others.g == g && others.Honest() && Priced(g, others.init, vals[..])
    && vals.Length == g.n && start + size <= g.n
    && reply.Valid() && g.n <= 32 * reply.words.Length && reply.words != vals
    && buf.Valid()
  }

  ghost predicate Accepted(pairs: seq<Pair>, u: nat) {
    exists p :: p in pairs && p.v == u
  }

  /** Whatever fell was lowered by the others, or is in an accepted pair. */
  ghost predicate Claimed(before: seq<nat>, after: seq<nat>, touched: set<nat>, pairs: seq<Pair>) {
    |before| == |after| && forall u: nat :: u < |before| && after[u] < before[u] ==> u in touched || Accepted(pairs, u)
  }

  lemma ClaimedTwice(a: seq<nat>, b: seq<nat>, c: seq<nat>, touched: set<nat>, later: set<nat>, pairs: seq<Pair>, more: seq<Pair>)
    requires Claimed(a, b, touched, pairs) && Claimed(b, c, later, more) && touched <= later && Fallen(a, b) && Fallen(b, c)
    ensures Claimed(a, c, later, pairs + more)
  {
    forall u: nat | u < |a| && c[u] < a[u]
      ensures u in later || Accepted(pairs + more, u)
    {
      if b[u] < a[u] {
        if Accepted(pairs, u) {
          var p :| p in pairs && p.v == u;
          assert p in pairs + more;
        }
      } else if Accepted(more, u) {
        var p :| p in more && p.v == u;
        assert p in pairs + more;
      }
    }
  }

  /** All of it: the step from `a` to `b` accepted `pairs`, which are prices of walks, and lowered nothing else. */
  ghost predicate Progress(g: Graph, init: seq<nat>, start: nat, size: nat, a: View, b: View, touched: set<nat>, pairs: seq<Pair>)
    requires WellFormed(g)
  {
    && Advances(start, size, a, b, pairs)
    && Claimed(a.vals, b.vals, touched, pairs)
    && forall p :: p in pairs ==> Sound(g, init, p)
  }

  lemma ProgressTwice(g: Graph, init: seq<nat>, start: nat, size: nat, a: View, b: View, c: View,
                      touched: set<nat>, later: set<nat>, pairs: seq<Pair>, more: seq<Pair>)
    requires WellFormed(g) && touched <= later
    requires Progress(g, init, start, size, a, b, touched, pairs) && Progress(g, init, start, size, b, c, later, more)
    ensures Progress(g, init, start, size, a, c, later, pairs + more)
  {
    AdvancesTwice(start, size, a, b, c, pairs, more);
    ClaimedTwice(a.vals, b.vals, c.vals, touched, later, pairs, more);
  }

  lemma NoProgress(g: Graph, init: seq<nat>, start: nat, size: nat, a: View, touched: set<nat>)
    requires WellFormed(g)
    ensures Progress(g, init, start, size, a, a, touched, [])
  {
    AdvancesNot(start, size, a);
  }

  /** The check and the CAS, with interference before, in between and after. */
  method CheckAndLower(vals: array<nat>, v: nat, y: nat, others: Others) returns (checked: bool, won: bool)
    requires v < vals.Length && others.Honest() && Priced(others.g, others.init, vals[..])
    requires Sound(others.g, others.init, Pair(v, y))
    modifies vals, others`moves, others`touched
    ensures others.Honest() && Priced(others.g, others.init, vals[..])
    ensures Fallen(old(vals[..]), vals[..]) && vals[v] <= y
    ensures checked ==> Sum(vals[..]) < old(Sum(vals[..]))
    ensures won ==> checked
    ensures old(others.touched) <= others.touched
    ensures forall u :: 0 <= u < vals.Length && vals[u] < old(vals[u]) ==> u in others.touched || (u == v && won)
  {
    won := false;
    others.Interfere(vals);
    checked := vals[v] > y;
    if checked {
      others.Interfere(vals);
      won := MinCas(vals, v, y);
    }
    others.Interfere(vals);
    if checked { assert vals[..][v] < old(vals[..])[v]; }
    SumFalls(old(vals[..]), vals[..]);
  }

  /** Queue the vertex when it is the worker's own, put it in the reply when it is not, and append the pair. */
  method Activate(start: nat, size: nat, v: nat, y: nat, queue: seq<nat>, reply: Bitmap, buf: SendBuffer)
    returns (queue': seq<nat>)
    requires reply.Valid() && v < 32 * reply.words.Length && buf.Valid()
    modifies reply.words, buf
    ensures reply.Valid() && buf.Valid()
    ensures buf.Contents() == old(buf.Contents()) + [Pair(v, y)]
    ensures queue' == if Local(start, size, v) then queue + [v] else queue
    ensures reply.Contents() == old(reply.Contents()) + if Local(start, size, v) then {} else {v}
  {
    queue' := queue;
    if Local(start, size, v) {
      queue' := queue + [v];
    } else {
      reply.Add(v);
    }
    buf.Append(v, y);
  }

  lemma FitsAfterFall(g: Graph, before: seq<nat>, after: seq<nat>)
    requires WellFormed(g) && |before| == g.n && AddsFit(g, before) && Fallen(before, after)
    ensures AddsFit(g, after)
  {
    forall u: nat, k: nat, v: nat | HasEdge(g, u, k) && v < g.n
      ensures after[v] + g.out[u][k].w < WORD
    {
      assert before[v] + g.out[u][k].w < WORD;
    }
  }

  lemma OfferSound(g: Graph, init: seq<nat>, x: nat, k: nat, val: nat)
    requires WellFormed(g) && HasEdge(g, x, k) && Sound(g, init, Pair(x, val)) && val + g.out[x][k].w < WORD
    ensures Sound(g, init, Pair(g.out[x][k].dst, val + g.out[x][k].w))
    ensures AddU32(val, g.out[x][k].w) == val + g.out[x][k].w
  {
    RealizedStep(g, init, x, k, val);
  }

  lemma ForeignOne(start: nat, size: nat, p: Pair)
    ensures Foreign(start, size, [p]) == if Local(start, size, p.v) then {} else {p.v}
  {
    if !Local(start, size, p.v) { assert p in [p]; }
  }

  lemma OneProgress(g: Graph, init: seq<nat>, start: nat, size: nat, a: View, b: View, touched: set<nat>, p: Pair, pushed: seq<Pair>)
    requires WellFormed(g) && Sound(g, init, p) && Fallen(a.vals, b.vals) && (pushed == [] || pushed == [p])
    requires b.sent == a.sent + pushed
    requires b.reply == a.reply + if pushed == [] || Local(start, size, p.v) then {} else {p.v}
    requires forall u :: 0 <= u < |a.vals| && b.vals[u] < a.vals[u] ==> u in touched || (u == p.v && pushed != [])
    ensures Progress(g, init, start, size, a, b, touched, pushed)
  {
    ForeignOne(start, size, p);
    assert Foreign(start, size, []) == {};
    if pushed != [] { assert p in pushed && Accepted(pushed, p.v); }
  }

  /** The body of the edge loop: check, aggregate, activate, append. */
  method Relax(g: Graph, start: nat, size: nat, x: nat, val: nat, k: nat, queue: seq<nat>, vals: array<nat>,
               reply: Bitmap, buf: SendBuffer, others: Others, winnerOnly: bool)
    returns (queue': seq<nat>, ghost pushed: seq<Pair>)
    requires Ready(g, start, size, vals, reply, buf, others) && HasEdge(g, x, k)
    requires val + g.out[x][k].w < WORD && Sound(g, others.init, Pair(x, val))
    modifies vals, reply.words, buf, others`moves, others`touched
    ensures Ready(g, start, size, vals, reply, buf, others)
    ensures Progress(g, others.init, start, size, old(View(vals[..], reply.Contents(), buf.Contents())),
                     View(vals[..], reply.Contents(), buf.Contents()), others.touched, pushed)
    ensures vals[..][g.out[x][k].dst] <= val + g.out[x][k].w
    ensures pushed == [] || pushed == [Pair(g.out[x][k].dst, val + g.out[x][k].w)]
    ensures pushed != [] ==> Sum(vals[..]) < old(Sum(vals[..]))
    ensures old(others.touched) <= others.touched
    ensures queue' == queue + if pushed != [] && Local(start, size, g.out[x][k].dst) then [g.out[x][k].dst] else []
  {
    queue', pushed := queue, [];
    var v, y := g.out[x][k].dst, AddU32(val, g.out[x][k].w);
    OfferSound(g, others.init, x, k, val);
    ghost var first := View(vals[..], reply.Contents(), buf.Contents());
    var checked, won := CheckAndLower(vals, v, y, others);
    if checked && (won || !winnerOnly) {
      queue' := Activate(start, size, v, y, queue, reply, buf);
      pushed := [Pair(v, y)];
    }
    OneProgress(g, others.init, start, size, first, View(vals[..], reply.Contents(), buf.Contents()), others.touched, Pair(v, y), pushed);
  }

  /** After one edge: what was owed is still handled, and so is what was pushed. */
  lemma EdgeHandled(g: Graph, start: nat, size: nat, a: View, b: View, queue: seq<nat>, queue': seq<nat>, now: Now,
                    owed: seq<Pair>, pushed: seq<Pair>, p: Pair)
    requires WellFormed(g) && |a.vals| == g.n && Advances(start, size, a, b, pushed)
    requires AllHandled(g, a.vals, queue, now, a.reply, start, size, owed)
    requires p.v < g.n && b.vals[p.v] <= p.y && (pushed == [] || pushed == [p])
    requires queue' == queue + if pushed != [] && Local(start, size, p.v) then [p.v] else []
    ensures AllHandled(g, b.vals, queue', now, b.reply, start, size, owed + pushed)
  {
    HandledKept(g, a.vals, b.vals, queue, queue', now, a.reply, b.reply, start, size, owed);
    if pushed == [p] { ForeignOne(start, size, p); }
    forall q | q in owed + pushed
      ensures Handled(g, b.vals, queue', now, b.reply, start, size, q)
    {
      if q in owed { assert Handled(g, b.vals, queue', now, b.reply, start, size, q); }
    }
  }

  ghost predicate EdgesDone(g: Graph, vals: seq<nat>, x: nat, val: nat, k: nat)
    requires WellFormed(g) && |vals| == g.n && x < g.n && k <= |g.out[x]|
  {
    forall j: nat :: j < k ==> HasEdge(g, x, j) && vals[g.out[x][j].dst] <= val + g.out[x][j].w
  }

  lemma EdgeDone(g: Graph, before: seq<nat>, after: seq<nat>, x: nat, val: nat, k: nat)
    requires WellFormed(g) && |before| == g.n && HasEdge(g, x, k) && Fallen(before, after)
    requires EdgesDone(g, before, x, val, k) && after[g.out[x][k].dst] <= val + g.out[x][k].w
    ensures EdgesDone(g, after, x, val, k + 1)
  {
    forall j: nat | j < k + 1
      ensures HasEdge(g, x, j) && after[g.out[x][j].dst] <= val + g.out[x][j].w
    {
      if j < k { assert HasEdge(g, x, j) && before[g.out[x][j].dst] <= val + g.out[x][j].w; }
    }
  }

  /** What the edge loop keeps after `k` edges of `x`. */
  ghost predicate Scanning(g: Graph, init: seq<nat>, start: nat, size: nat, x: nat, val: nat, k: nat, first: View, now: View,
                           queue: seq<nat>, queue': seq<nat>, touched: set<nat>, owed: seq<Pair>, pairs: seq<Pair>)
    requires WellFormed(g) && |now.vals| == g.n && x < g.n && k <= |g.out[x]|
  {
    && Locals(start, size, queue') && Paid(first.vals, now.vals, queue, queue')
    && Progress(g, init, start, size, first, now, touched, pairs)
    && AllHandled(g, now.vals, queue', Expanding(x, val), now.reply, start, size, owed + pairs)
    && EdgesDone(g, now.vals, x, val, k)
  }

  /** One turn of the edge loop. */
  method ScanEdge(g: Graph, start: nat, size: nat, x: nat, val: nat, k: nat, queue': seq<nat>, vals: array<nat>,
                  reply: Bitmap, buf: SendBuffer, others: Others, winnerOnly: bool,
                  ghost first: View, ghost queue: seq<nat>, ghost owed: seq<Pair>, ghost pairs: seq<Pair>)
    returns (queue'': seq<nat>, ghost pairs': seq<Pair>)
    requires Ready(g, start, size, vals, reply, buf, others) && HasEdge(g, x, k)
    requires Sound(g, others.init, Pair(x, val)) && val + g.out[x][k].w < WORD
    requires Scanning(g, others.init, start, size, x, val, k, first, View(vals[..], reply.Contents(), buf.Contents()),
                      queue, queue', others.touched, owed, pairs)
    modifies vals, reply.words, buf, others`moves, others`touched
    ensures Ready(g, start, size, vals, reply, buf, others) && old(others.touched) <= others.touched
    ensures Scanning(g, others.init, start, size, x, val, k + 1, first, View(vals[..], reply.Contents(), buf.Contents()),
                     queue, queue'', others.touched, owed, pairs')
  {
    ghost var view, touched := View(vals[..], reply.Contents(), buf.Contents()), others.touched;
    ghost var pushed;
    queue'', pushed := Relax(g, start, size, x, val, k, queue', vals, reply, buf, others, winnerOnly);
    ghost var after := View(vals[..], reply.Contents(), buf.Contents());
    EdgeHandled(g, start, size, view, after, queue', queue'', Expanding(x, val), owed + pairs, pushed,
                Pair(g.out[x][k].dst, val + g.out[x][k].w));
    EdgeDone(g, view.vals, after.vals, x, val, k);
    ProgressTwice(g, others.init, start, size, first, view, after, touched, others.touched, pairs, pushed);
    PaidTwice(first.vals, view.vals, after.vals, queue, queue', queue'');
    assert (owed + pairs) + pushed == owed + (pairs + pushed);
    pairs' := pairs + pushed;
  }

  /** Scan all edges of `x` from the value read for it. */
  method ScanVertex(g: Graph, start: nat, size: nat, x: nat, val: nat, queue: seq<nat>, vals: array<nat>,
                    reply: Bitmap, buf: SendBuffer, others: Others, winnerOnly: bool, ghost owed: seq<Pair>)
    returns (queue': seq<nat>, ghost pairs: seq<Pair>)
    requires Ready(g, start, size, vals, reply, buf, others) && x < g.n && Locals(start, size, queue)
    requires Sound(g, others.init, Pair(x, val)) && forall k: nat :: HasEdge(g, x, k) ==> val + g.out[x][k].w < WORD
    requires AllHandled(g, vals[..], queue, Expanding(x, val), reply.Contents(), start, size, owed)
    modifies vals, reply.words, buf, others`moves, others`touched
    ensures Ready(g, start, size, vals, reply, buf, others) && Locals(start, size, queue')
    ensures Progress(g, others.init, start, size, old(View(vals[..], reply.Contents(), buf.Contents())),
                     View(vals[..], reply.Contents(), buf.Contents()), others.touched, pairs)
    ensures Paid(old(vals[..]), vals[..], queue, queue')
    ensures old(others.touched) <= others.touched
    ensures AllHandled(g, vals[..], queue', Nothing, reply.Contents(), start, size, owed + pairs)
  {
    queue', pairs := queue, [];
    ghost var first := View(vals[..], reply.Contents(), buf.Contents());
    NoProgress(g, others.init, start, size, first, others.touched);
    assert owed + pairs == owed;
    for k := 0 to |g.out[x]|
      invariant Ready(g, start, size, vals, reply, buf, others) && old(others.touched) <= others.touched
      invariant Scanning(g, others.init, start, size, x, val, k, first, View(vals[..], reply.Contents(), buf.Contents()),
                         queue, queue', others.touched, owed, pairs)
    {
      assert HasEdge(g, x, k);
      queue', pairs := ScanEdge(g, start, size, x, val, k, queue', vals, reply, buf, others, winnerOnly,
                                first, queue, owed, pairs);
    }
    Scanned(g, vals[..], queue', x, val, reply.Contents(), start, size, owed + pairs);
  }

  /** The round's active vertices, each with the value it starts the round with. */
  ghost function Opening(active: seq<nat>, vals: seq<nat>): (s: seq<Pair>)
    requires forall x :: x in active ==> x < |vals|
    ensures |s| == |active| && forall i :: 0 <= i < |s| ==> active[i] in active && s[i] == Pair(active[i], vals[active[i]])
  {
    seq(|active|, i requires 0 <= i < |active| => assert active[i] in active; Pair(active[i], vals[active[i]]))
  }

  /** What the worklist loop keeps: `first` is where it started, `pairs` what it has accepted so far. */
  ghost predicate Draining(g: Graph, init: seq<nat>, start: nat, size: nat, first: View, now: View, queue: seq<nat>,
                           touched: set<nat>, owed: seq<Pair>, pairs: seq<Pair>)
    requires WellFormed(g) && |now.vals| == g.n
  {
    && Locals(start, size, queue) && AddsFit(g, now.vals)
    && Progress(g, init, start, size, first, now, touched, pairs)
    && AllHandled(g, now.vals, queue, Nothing, now.reply, start, size, owed + pairs)
  }

  lemma DrainingNext(g: Graph, init: seq<nat>, start: nat, size: nat, first: View, a: View, b: View,
                     queue: seq<nat>, queue': seq<nat>, touched: set<nat>, later: set<nat>,
                     owed: seq<Pair>, pairs: seq<Pair>, more: seq<Pair>)
    requires WellFormed(g) && |a.vals| == |b.vals| == g.n && touched <= later
    requires Draining(g, init, start, size, first, a, queue, touched, owed, pairs)
    requires Progress(g, init, start, size, a, b, later, more) && Locals(start, size, queue')
    requires AllHandled(g, b.vals, queue', Nothing, b.reply, start, size, (owed + pairs) + more)
    ensures Draining(g, init, start, size, first, b, queue', later, owed, pairs + more)
  {
    ProgressTwice(g, init, start, size, first, a, b, touched, later, pairs, more);
    FitsAfterFall(g, a.vals, b.vals);
    assert (owed + pairs) + more == owed + (pairs + more);
  }

  /** The others get to work between two turns of the worklist loop. */
  method Pause(g: Graph, start: nat, size: nat, queue: seq<nat>, vals: array<nat>,
               reply: Bitmap, buf: SendBuffer, others: Others,
               ghost first: View, ghost owed: seq<Pair>, ghost pairs: seq<Pair>)
    requires Ready(g, start, size, vals, reply, buf, others)
    requires Draining(g, others.init, start, size, first, View(vals[..], reply.Contents(), buf.Contents()), queue,
                      others.touched, owed, pairs)
    modifies vals, others`moves, others`touched
    ensures Ready(g, start, size, vals, reply, buf, others) && Sum(vals[..]) <= old(Sum(vals[..]))
    ensures Draining(g, others.init, start, size, first, View(vals[..], reply.Contents(), buf.Contents()), queue,
                     others.touched, owed, pairs)
  {
    ghost var before, touched := View(vals[..], reply.Contents(), buf.Contents()), others.touched;
    others.Interfere(vals);
    ghost var after := View(vals[..], reply.Contents(), buf.Contents());
    SumFalls(before.vals, after.vals);
    AdvancesNot(start, size, before);
    HandledKept(g, before.vals, after.vals, queue, queue, Nothing, before.reply, after.reply, start, size, owed + pairs);
    assert (owed + pairs) + [] == owed + pairs && pairs + [] == pairs;
    DrainingNext(g, others.init, start, size, first, before, after, queue, queue, touched, others.touched, owed, pairs, []);
  }

  /** One turn of the worklist loop: pop a vertex, read its value, scan its edges. */
  method Turn(g: Graph, start: nat, size: nat, queue: seq<nat>, vals: array<nat>,
              reply: Bitmap, buf: SendBuffer, others: Others, winnerOnly: bool,
              ghost first: View, ghost owed: seq<Pair>, ghost pairs: seq<Pair>)
    returns (queue': seq<nat>, ghost pairs': seq<Pair>)
    requires Ready(g, start, size, vals, reply, buf, others) && queue != []
    requires Draining(g, others.init, start, size, first, View(vals[..], reply.Contents(), buf.Contents()), queue,
                      others.touched, owed, pairs)
    modifies vals, reply.words, buf, others`moves, others`touched
    ensures Ready(g, start, size, vals, reply, buf, others)
    ensures Draining(g, others.init, start, size, first, View(vals[..], reply.Contents(), buf.Contents()), queue',
                     others.touched, owed, pairs')
    ensures Sum(vals[..]) < old(Sum(vals[..])) || (Sum(vals[..]) == old(Sum(vals[..])) && |queue'| < |queue|)
  {
    var x, rest := queue[0], queue[1..];
    assert x in queue && forall u :: u in rest ==> u in queue;
    Pause(g, start, size, queue, vals, reply, buf, others, first, owed, pairs);
    ghost var before, touched := View(vals[..], reply.Contents(), buf.Contents()), others.touched;
    Popped(g, vals[..], queue, reply.Contents(), start, size, owed + pairs);
    ghost var more;
    queue', more := ScanVertex(g, start, size, x, vals[x], rest, vals, reply, buf, others, winnerOnly, owed + pairs);
    SumFalls(before.vals, vals[..]);
    DrainingNext(g, others.init, start, size, first, before, View(vals[..], reply.Contents(), buf.Contents()),
                 queue, queue', touched, others.touched, owed, pairs, more);
    pairs' := pairs + more;
  }

  /** The worklist loop, until the worklist is empty. */
  method Drain(g: Graph, start: nat, size: nat, active: seq<nat>, vals: array<nat>,
               reply: Bitmap, buf: SendBuffer, others: Others, winnerOnly: bool, ghost owed: seq<Pair>)
    returns (ghost pairs: seq<Pair>)
    requires Ready(g, start, size, vals, reply, buf, others) && Locals(start, size, active) && AddsFit(g, vals[..])
    requires AllHandled(g, vals[..], active, Nothing, reply.Contents(), start, size, owed)
    modifies vals, reply.words, buf, others`moves, others`touched
    ensures Ready(g, start, size, vals, reply, buf, others)
    ensures Draining(g, others.init, start, size, old(View(vals[..], reply.Contents(), buf.Contents())),
                     View(vals[..], reply.Contents(), buf.Contents()), [], others.touched, owed, pairs)
  {
    var queue := active;
    pairs := [];
    ghost var first := View(vals[..], reply.Contents(), buf.Contents());
    NoProgress(g, others.init, start, size, first, others.touched);
    assert owed + pairs == owed;
    while |queue| > 0
      invariant Ready(g, start, size, vals, reply, buf, others)
      invariant Draining(g, others.init, start, size, first, View(vals[..], reply.Contents(), buf.Contents()), queue,
                         others.touched, owed, pairs)
      decreases Sum(vals[..]), |queue|
    {
      queue, pairs := Turn(g, start, size, queue, vals, reply, buf, others, winnerOnly, first, owed, pairs);
    }
    assert queue == [];
  }

  lemma OpeningHandled(g: Graph, vals: seq<nat>, active: seq<nat>, reply: set<nat>, start: nat, size: nat)
    requires WellFormed(g) && |vals| == g.n && start + size <= g.n && Locals(start, size, active)
    ensures AllHandled(g, vals, active, Nothing, reply, start, size, Opening(active, vals))
  {
  }

  /** With the worklist empty, everything owed has been expanded. */
  lemma AllExpanded(g: Graph, vals: seq<nat>, reply: set<nat>, start: nat, size: nat, active: seq<nat>,
                    before: seq<nat>, pairs: seq<Pair>)
    requires WellFormed(g) && |vals| == |before| == g.n && start + size <= g.n && Locals(start, size, active)
    requires AllHandled(g, vals, [], Nothing, reply, start, size, Opening(active, before) + pairs)
    ensures forall x :: x in active ==> Expanded(g, vals, x, before[x])
    ensures forall p :: p in pairs ==> p.v < g.n && vals[p.v] <= p.y
    ensures forall p :: p in pairs && Local(start, size, p.v) ==> Expanded(g, vals, p.v, p.y)
  {
    var owed := Opening(active, before) + pairs;
    forall x | x in active
      ensures Expanded(g, vals, x, before[x])
    {
      var i :| 0 <= i < |active| && active[i] == x;
      assert owed[i] == Pair(x, before[x]) && owed[i] in owed;
      assert Handled(g, vals, [], Nothing, reply, start, size, owed[i]);
    }
    forall p | p in pairs
      ensures p.v < g.n && vals[p.v] <= p.y
      ensures Local(start, size, p.v) ==> Expanded(g, vals, p.v, p.y)
    {
      assert p in owed && Handled(g, vals, [], Nothing, reply, start, size, p);
    }
  }

  /** `Calc`, whatever the others do meanwhile: the loop ends; every cell and every accepted pair is the price
      of a walk; every cell that fell was lowered by the others or is in an accepted pair; every initially
      active vertex has been expanded from a value no higher than it had at the start; every accepted pair has
      been appended in order, its cell is at most the offer, and its vertex has been expanded from at most that
      offer or, when it belongs to another partition, put in the reply; and the reply gained nothing else. */
  method Calc(g: Graph, start: nat, size: nat, active: seq<nat>, vals: array<nat>,
              reply: Bitmap, buf: SendBuffer, others: Others, winnerOnly: bool)
    returns (ghost pairs: seq<Pair>)
    requires Ready(g, start, size, vals, reply, buf, others) && Locals(start, size, active) && AddsFit(g, vals[..])
    modifies vals, reply.words, buf, others`moves, others`touched
    ensures Ready(g, start, size, vals, reply, buf, others) && Fallen(old(vals[..]), vals[..])
    ensures forall x :: x in active ==> x < g.n && Expanded(g, vals[..], x, old(vals[..])[x])
    ensures Claimed(old(vals[..]), vals[..], others.touched, pairs)
    ensures buf.Contents() == old(buf.Contents()) + pairs
    ensures forall p :: p in pairs ==> p.v < g.n && vals[..][p.v] <= p.y && Realized(g, others.init, p.v, p.y)
    ensures forall p :: p in pairs && Local(start, size, p.v) ==> Expanded(g, vals[..], p.v, p.y)
    ensures reply.Contents() == old(reply.Contents()) + Foreign(start, size, pairs)
  {
    ghost var first := View(vals[..], reply.Contents(), buf.Contents());
    OpeningHandled(g, first.vals, active, first.reply, start, size);
    pairs := Drain(g, start, size, active, vals, reply, buf, others, winnerOnly, Opening(active, first.vals));
    AllExpanded(g, vals[..], reply.Contents(), start, size, active, first.vals, pairs);
  }
}
