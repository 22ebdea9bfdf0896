/** The `Calc` loops of breadth-first search, pull-mode components and PageRank on their real data. In the first
    two the other workers interfere between any two accesses to the shared array; PageRank's blocks read one
    buffer and write cells of their own in the other. */
module CalcLoops {
  import opened Graphs
  import opened Partitions
  import opened Sums
  import opened Bitmaps
  import opened Bfs
  import PR = PageRank

  predicate Within(ids: seq<nat>, n: nat) {
    forall i :: 0 <= i < |ids| ==> ids[i] < n
  }

  datatype Move = Move(v: nat, y: nat)

  // ---- Breadth-first search ----

  predicate IsEdge(g: Graph, x: nat, v: nat) {
    x < |g.out| && exists k: nat | k < |g.out[x]| :: g.out[x][k].dst == v
  }

  ghost predicate MarksKept(before: seq<nat>, after: seq<nat>) {
    |before| == |after| && forall v: nat :: MarkedIn(before, v) ==> MarkedIn(after, v)
  }

  /** No mark is lost; a parent that changed is a true in-neighbour, stored by the others or for a vertex this
      worker took. */
  ghost predicate Searched(g: Graph, before: seq<nat>, after: seq<nat>, touched: set<nat>, took: seq<nat>) {
    && MarksKept(before, after)
    && forall v: nat :: v < |before| && after[v] != before[v] ==> IsEdge(g, after[v], v) && (v in touched || v in took)
  }

  /** Everybody else searching the same array: they mark vertices, and may overwrite parents, with true
      in-neighbours. */
  class Searchers {
    var moves: seq<seq<Move>>
    /** The vertices they have stored a parent for so far. */
    ghost var touched: set<nat>

    constructor (moves: seq<seq<Move>>)
      ensures this.moves == moves && touched == {}
    {
      this.moves, this.touched := moves, {};
    }

    method Interfere(g: Graph, parent: array<nat>)
      requires |g.out| <= 1_000_000_000
      modifies this, parent
      ensures old(touched) <= touched && Searched(g, old(parent[..]), parent[..], touched, [])
    {
      if moves != [] {
        var batch := moves[0];
        moves := moves[1..];
        for i := 0 to |batch|
          invariant old(touched) <= touched && Searched(g, old(parent[..]), parent[..], touched, [])
        {
          var v, y := batch[i].v, batch[i].y;
          if v < parent.Length && IsEdge(g, y, v) {
            parent[v] := y;
            touched := touched + {v};
          }
        }
      }
    }
  }

  lemma SearchedTwice(g: Graph, a: seq<nat>, b: seq<nat>, c: seq<nat>, touched: set<nat>, later: set<nat>,
                      took: seq<nat>, more: seq<nat>)
    requires Searched(g, a, b, touched, took) && Searched(g, b, c, later, more) && touched <= later
    ensures Searched(g, a, c, later, took + more)
  {
    forall v: nat | v < |a| && c[v] != a[v]
      ensures IsEdge(g, c[v], v) && (v in later || v in took + more)
    {
      if c[v] == b[v] { assert b[v] != a[v]; } else { assert v in later || v in more; }
    }
  }

  /** The first `k` edges out of `x` lead to marked vertices. */
  ghost predicate Followed(g: Graph, parent: seq<nat>, x: nat, k: nat) {
    x < |g.out| && forall j: nat :: j < k && j < |g.out[x]| ==> MarkedIn(parent, g.out[x][j].dst)
  }

  ghost predicate AllFollowed(g: Graph, parent: seq<nat>, x: nat) {
    x < |g.out| && Followed(g, parent, x, |g.out[x]|)
  }

  /** Every vertex owed a scan is queued, or has been scanned. */
  ghost predicate Owing(g: Graph, parent: seq<nat>, queue: seq<nat>, start: nat, size: nat, owed: seq<nat>) {
    forall x :: x in owed && Local(start, size, x) ==> x in queue || AllFollowed(g, parent, x)
  }

  ghost function ForeignOf(start: nat, size: nat, taken: seq<nat>): set<nat> {
    set v | v in taken && !Local(start, size, v)
  }

  ghost predicate Ready(g: Graph, start: nat, size: nat, parent: array<nat>, reply: Bitmap)
    reads parent, reply.words
  {
    && WellFormed(g) && parent.Length == g.n <= 1_000_000_000 && start + size <= g.n
    && reply.Valid() && g.n <= 32 * reply.words.Length && reply.words != parent
  }

  lemma FollowedKept(g: Graph, before: seq<nat>, after: seq<nat>, x: nat, k: nat)
    requires MarksKept(before, after) && Followed(g, before, x, k)
    ensures Followed(g, after, x, k)
  {
  }

  lemma OwingKept(g: Graph, before: seq<nat>, after: seq<nat>, queue: seq<nat>, longer: seq<nat>,
                  start: nat, size: nat, owed: seq<nat>)
    requires MarksKept(before, after) && Owing(g, before, queue, start, size, owed)
    requires forall x :: x in queue ==> x in longer
    ensures Owing(g, after, longer, start, size, owed)
  {
    forall x | x in owed && Local(start, size, x)
      ensures x in longer || AllFollowed(g, after, x)
    {
      if x !in queue { FollowedKept(g, before, after, x, |g.out[x]|); }
    }
  }

  lemma MarkFewer(before: seq<nat>, after: seq<nat>, v: nat)
    requires MarksKept(before, after) && v < |before| && before[v] == 1_000_000_000 && MarkedIn(after, v)
    ensures |Unmarked(after)| < |Unmarked(before)|
  {
    FewerUnmarked(before, after);
    assert v in Unmarked(before);
  }

  /** The store after a check, with interference before and after. */
  method Claim(g: Graph, x: nat, v: nat, parent: array<nat>, others: Searchers)
    requires |g.out| <= 1_000_000_000 && v < parent.Length && IsEdge(g, x, v)
    modifies parent, others
    ensures old(others.touched) <= others.touched && Searched(g, old(parent[..]), parent[..], others.touched, [v])
    ensures MarkedIn(parent[..], v)
  {
    ghost var first, touched := parent[..], others.touched;
    others.Interfere(g, parent);
    ghost var second := parent[..];
    parent[v] := x;
    ghost var third := parent[..];
    assert Searched(g, second, third, others.touched, [v]);
    SearchedTwice(g, first, second, third, others.touched, others.touched, [], [v]);
    touched := others.touched;
    others.Interfere(g, parent);
    SearchedTwice(g, first, third, parent[..], touched, others.touched, [] + [v], []);
    assert [] + [v] + [] == [v];
  }

  /** The body of the edge loop, with interference before the check as well. */
  method Visit(g: Graph, start: nat, size: nat, x: nat, v: nat, queue: seq<nat>, parent: array<nat>, reply: Bitmap,
               others: Searchers) returns (queue': seq<nat>, ghost took: seq<nat>)
    requires Ready(g, start, size, parent, reply) && x < g.n && v < g.n && IsEdge(g, x, v)
    modifies parent, reply.words, others
    ensures Ready(g, start, size, parent, reply)
    ensures old(others.touched) <= others.touched && Searched(g, old(parent[..]), parent[..], others.touched, took)
    ensures MarkedIn(parent[..], v)
    ensures took == [] || took == [v]
    ensures took != [] ==> |Unmarked(parent[..])| < old(|Unmarked(parent[..])|)
    ensures queue' == queue + if took != [] && Local(start, size, v) then [v] else []
    ensures reply.Contents() == old(reply.Contents()) + ForeignOf(start, size, took)
  {
    queue', took := queue, [];
    assert ForeignOf(start, size, []) == {};
    ghost var first := parent[..];
    others.Interfere(g, parent);
    ghost var second, touched := parent[..], others.touched;
    FewerUnmarked(first, second);
    if parent[v] == UNMARKED {
      Claim(g, x, v, parent, others);
      MarkFewer(second, parent[..], v);
      SearchedTwice(g, first, second, parent[..], touched, others.touched, [], [v]);
      took := [v];
      assert v in [v] && [] + [v] == [v];
      if Local(start, size, v) {
        queue' := queue + [v];
      } else {
        reply.Add(v);
      }
    }
  }

  lemma TookMore(g: Graph, parent: seq<nat>, queue: seq<nat>, start: nat, size: nat, owed: seq<nat>, more: seq<nat>)
    requires Owing(g, parent, queue, start, size, owed)
    requires forall v :: v in more && Local(start, size, v) ==> v in queue
    ensures Owing(g, parent, queue, start, size, owed + more)
  {
  }

  /** Scan all edges of `x`. */
  method ScanOut(g: Graph, start: nat, size: nat, x: nat, queue: seq<nat>, parent: array<nat>, reply: Bitmap,
                 others: Searchers, ghost owed: seq<nat>) returns (queue': seq<nat>, ghost took: seq<nat>)
    requires Ready(g, start, size, parent, reply) && x < g.n && Owing(g, parent[..], [x] + queue, start, size, owed)
    requires forall u :: u in queue ==> Local(start, size, u)
    modifies parent, reply.words, others
    ensures Ready(g, start, size, parent, reply)
    ensures forall u :: u in queue' ==> Local(start, size, u)
    ensures old(others.touched) <= others.touched && Searched(g, old(parent[..]), parent[..], others.touched, took)
    ensures queue' == queue || |Unmarked(parent[..])| < old(|Unmarked(parent[..])|)
    ensures |Unmarked(parent[..])| <= old(|Unmarked(parent[..])|)
    ensures forall v :: v in took ==> MarkedIn(parent[..], v)
    ensures Owing(g, parent[..], queue', start, size, owed + took)
    ensures reply.Contents() == old(reply.Contents()) + ForeignOf(start, size, took)
  {
    queue', took := queue, [];
    ghost var first := parent[..];
    assert ForeignOf(start, size, []) == {} && owed + [] == owed;
    for k := 0 to |g.out[x]|
      invariant Ready(g, start, size, parent, reply)
      invariant forall u :: u in queue' ==> Local(start, size, u)
      invariant old(others.touched) <= others.touched && Searched(g, first, parent[..], others.touched, took)
      invariant Followed(g, parent[..], x, k)
      invariant queue' == queue || |Unmarked(parent[..])| < |Unmarked(first)|
      invariant |Unmarked(parent[..])| <= |Unmarked(first)|
      invariant forall v :: v in took ==> MarkedIn(parent[..], v)
      invariant Owing(g, parent[..], [x] + queue', start, size, owed + took)
      invariant reply.Contents() == old(reply.Contents()) + ForeignOf(start, size, took)
    {
      ghost var before, queue0, touched := parent[..], queue', others.touched;
      assert HasEdge(g, x, k) && IsEdge(g, x, g.out[x][k].dst);
      ghost var more;
      queue', more := Visit(g, start, size, x, g.out[x][k].dst, queue', parent, reply, others);
      SearchedTwice(g, first, before, parent[..], touched, others.touched, took, more);
      FollowedKept(g, before, parent[..], x, k);
      FewerUnmarked(before, parent[..]);
      OwingKept(g, before, parent[..], [x] + queue0, [x] + queue', start, size, owed + took);
      TookMore(g, parent[..], [x] + queue', start, size, owed + took, more);
      assert (owed + took) + more == owed + (took + more);
      assert ForeignOf(start, size, took + more) == ForeignOf(start, size, took) + ForeignOf(start, size, more);
      took := took + more;
    }
  }

  ghost predicate LocalQueue(start: nat, size: nat, queue: seq<nat>) {
    forall u :: u in queue ==> Local(start, size, u)
  }

  ghost predicate AllMarked(parent: seq<nat>, taken: seq<nat>) {
    forall v :: v in taken ==> MarkedIn(parent, v)
  }

  lemma ForeignMore(start: nat, size: nat, a: seq<nat>, b: seq<nat>)
    ensures ForeignOf(start, size, a + b) == ForeignOf(start, size, a) + ForeignOf(start, size, b)
  {
  }

  /** One turn of the worklist loop. */
  method Turn(g: Graph, start: nat, size: nat, queue: seq<nat>, parent: array<nat>, reply: Bitmap, others: Searchers,
              ghost active: seq<nat>, ghost taken: seq<nat>) returns (queue': seq<nat>, ghost taken': seq<nat>)
    requires Ready(g, start, size, parent, reply) && queue != [] && LocalQueue(start, size, queue)
    requires Owing(g, parent[..], queue, start, size, active + taken) && AllMarked(parent[..], taken)
    modifies parent, reply.words, others
    ensures Ready(g, start, size, parent, reply) && LocalQueue(start, size, queue')
    ensures old(others.touched) <= others.touched
    ensures exists more :: taken' == taken + more && Searched(g, old(parent[..]), parent[..], others.touched, more)
    ensures Owing(g, parent[..], queue', start, size, active + taken') && AllMarked(parent[..], taken')
    ensures |Unmarked(parent[..])| < old(|Unmarked(parent[..])|) ||
            (|Unmarked(parent[..])| == old(|Unmarked(parent[..])|) && |queue'| < |queue|)
    ensures reply.Contents() + ForeignOf(start, size, taken) == old(reply.Contents()) + ForeignOf(start, size, taken')
    ensures ForeignOf(start, size, taken) <= ForeignOf(start, size, taken')
    ensures old(reply.Contents()) <= reply.Contents()
  {
    var x, rest := queue[0], queue[1..];
    assert x in queue && queue == [x] + rest && forall u :: u in rest ==> u in queue;
    ghost var more;
    queue', more := ScanOut(g, start, size, x, rest, parent, reply, others, active + taken);
    assert (active + taken) + more == active + (taken + more);
    taken' := taken + more;
    ForeignMore(start, size, taken, more);
  }

  lemma Settled(g: Graph, parent: seq<nat>, start: nat, size: nat, active: seq<nat>, taken: seq<nat>)
    requires Owing(g, parent, [], start, size, active + taken) && LocalQueue(start, size, active)
    ensures forall x :: x in active ==> AllFollowed(g, parent, x)
    ensures forall v :: v in taken && Local(start, size, v) ==> AllFollowed(g, parent, v)
  {
    assert forall x :: x in active || x in taken ==> x in active + taken;
  }

  /** `Calc` of the search, whatever the others do: it ends; marks are kept, every changed parent is a true
      in-neighbour, and a vertex the others did not store was taken by this worker; every initially active vertex has had all its
      edges followed; every vertex the worker took is marked, and has had its edges followed too or, when it
      belongs to another partition, is in the reply, which gained nothing else. */
  method Search(g: Graph, start: nat, size: nat, active: seq<nat>, parent: array<nat>, reply: Bitmap, others: Searchers)
    returns (ghost taken: seq<nat>)
    requires Ready(g, start, size, parent, reply) && LocalQueue(start, size, active)
    modifies parent, reply.words, others
    ensures Ready(g, start, size, parent, reply) && Searched(g, old(parent[..]), parent[..], others.touched, taken)
    ensures forall x :: x in active ==> AllFollowed(g, parent[..], x)
    ensures AllMarked(parent[..], taken)
    ensures forall v :: v in taken && Local(start, size, v) ==> AllFollowed(g, parent[..], v)
    ensures reply.Contents() == old(reply.Contents()) + ForeignOf(start, size, taken)
  {
    var queue := active;
    taken := [];
    ghost var first := parent[..];
    assert active + [] == active && ForeignOf(start, size, []) == {};
    while |queue| > 0
      invariant Ready(g, start, size, parent, reply) && Searched(g, first, parent[..], others.touched, taken)
      invariant LocalQueue(start, size, queue)
      invariant Owing(g, parent[..], queue, start, size, active + taken) && AllMarked(parent[..], taken)
      invariant reply.Contents() == old(reply.Contents()) + ForeignOf(start, size, taken)
      decreases |Unmarked(parent[..])|, |queue|
    {
      ghost var before, touched, taken0 := parent[..], others.touched, taken;
      queue, taken := Turn(g, start, size, queue, parent, reply, others, active, taken);
      ghost var more :| taken == taken0 + more && Searched(g, before, parent[..], others.touched, more);
      SearchedTwice(g, first, before, parent[..], touched, others.touched, taken0, more);
    }
    Settled(g, parent[..], start, size, active, taken);
  }

  // ---- Pull-mode components ----

  ghost predicate Lowered(before: seq<nat>, after: seq<nat>, block: seq<nat>) {
    && |after| == |before|
    && forall v :: 0 <= v < |before| ==> after[v] <= before[v] && (v in block ==> after[v] == before[v])
  }

  /** The other blocks: they lower labels, but never a label of this block's vertices. */
  class Rivals {
    var moves: seq<seq<Move>>

    constructor (moves: seq<seq<Move>>)
      ensures this.moves == moves
    {
      this.moves := moves;
    }

    method Interfere(vals: array<nat>, block: seq<nat>)
      modifies this, vals
      ensures Lowered(old(vals[..]), vals[..], block)
    {
      if moves != [] {
        var batch := moves[0];
        moves := moves[1..];
        for i := 0 to |batch|
          invariant Lowered(old(vals[..]), vals[..], block)
        {
          var v := batch[i].v;
          if v < vals.Length && v !in block && batch[i].y < vals[v] { vals[v] := batch[i].y; }
        }
      }
    }
  }

  /** `y` is at most every label `before` gives the first `count` in-neighbours. */
  ghost predicate UnderFirst(inn: seq<nat>, before: seq<nat>, y: nat, count: nat) {
    forall j: nat :: j < count && j < |inn| && inn[j] < |before| ==> y <= before[inn[j]]
  }

  /** Some other in-neighbour's label has come down to `y`. */
  ghost predicate SeenAt(inn: seq<nat>, u: nat, vals: seq<nat>, y: nat) {
    exists x :: x in inn && x != u && x < |vals| && vals[x] <= y
  }

  lemma SeenLater(inn: seq<nat>, u: nat, before: seq<nat>, after: seq<nat>, y: nat)
    requires Fallen(before, after) && SeenAt(inn, u, before, y)
    ensures SeenAt(inn, u, after, y)
  {
    var x :| x in inn && x != u && x < |before| && before[x] <= y;
    assert after[x] <= y;
  }

  /** The least of a vertex's own label and its in-neighbours', read one by one while they fall. */
  method SmallestLabel(inn: seq<nat>, u: nat, vals: array<nat>, block: seq<nat>, others: Rivals) returns (val: nat, newVal: nat)
    requires u < vals.Length && u in block && Within(inn, vals.Length)
    modifies vals, others
    ensures Lowered(old(vals[..]), vals[..], block)
    ensures val == old(vals[u]) && newVal <= val && UnderFirst(inn, old(vals[..]), newVal, |inn|)
    ensures newVal == val || SeenAt(inn, u, vals[..], newVal)
  {
    ghost var first := vals[..];
    others.Interfere(vals, block);
    val := vals[u];
    newVal := val;
    for i := 0 to |inn|
      invariant Lowered(first, vals[..], block) && newVal <= val && UnderFirst(inn, first, newVal, i)
      invariant newVal <= val && (newVal == val || SeenAt(inn, u, vals[..], newVal))
    {
      ghost var before := vals[..];
      others.Interfere(vals, block);
      if newVal < val { SeenLater(inn, u, before, vals[..], newVal); }
      assert inn[i] in inn;
      var vval := vals[inn[i]];
      if vval < newVal {
        newVal := vval;
        assert vals[..][inn[i]] <= newVal;
      }
    }
  }

  /** One vertex: its label drops to the smallest one read, and nothing else of the block changes. */
  method PullVertex(u: nat, inn: seq<nat>, vals: array<nat>, block: seq<nat>, others: Rivals) returns (fell: bool)
    requires u < vals.Length && u in block && Within(inn, vals.Length)
    modifies vals, others
    ensures Fallen(old(vals[..]), vals[..])
    ensures forall v :: v in block && v < vals.Length && v != u ==> vals[v] == old(vals[v])
    ensures UnderFirst(inn, old(vals[..]), vals[u], |inn|)
    ensures fell <==> vals[u] < old(vals[u])
    ensures fell ==> SeenAt(inn, u, vals[..], vals[u])
  {
    var val, newVal := SmallestLabel(inn, u, vals, block, others);
    fell := newVal < val;
    if fell {
      ghost var before := vals[..];
      others.Interfere(vals, block);
      vals[u] := newVal;
      SeenLater(inn, u, before, vals[..], newVal);
    }
  }

  /** What the block has done for `u`: `first` are the labels before the block. */
  ghost predicate PulledFrom(inn: seq<seq<nat>>, first: seq<nat>, vals: seq<nat>, next: set<nat>, u: nat) {
    && u < |inn| && u < |first| == |vals|
    && UnderFirst(inn[u], first, vals[u], |inn[u]|)
    && (u in next <==> vals[u] < first[u])
    && (u in next ==> SeenAt(inn[u], u, vals, vals[u]))
  }

  lemma PulledLater(inn: seq<seq<nat>>, first: seq<nat>, before: seq<nat>, after: seq<nat>, next: set<nat>, later: set<nat>, u: nat)
    requires PulledFrom(inn, first, before, next, u) && Fallen(before, after) && after[u] == before[u]
    requires u in next <==> u in later
    ensures PulledFrom(inn, first, after, later, u)
  {
    if u in next { SeenLater(inn[u], u, before, after, before[u]); }
  }

  ghost predicate DataOk(data: seq<Move>, next: set<nat>, vals: seq<nat>) {
    forall m :: m in data <==> m.v in next && m.v < |vals| && m.y == vals[m.v]
  }

  lemma UnderEarlier(inn: seq<nat>, first: seq<nat>, before: seq<nat>, y: nat)
    requires Fallen(first, before) && UnderFirst(inn, before, y, |inn|)
    ensures UnderFirst(inn, first, y, |inn|)
  {
  }

  lemma Reported(block: seq<nat>, i: nat, next: set<nat>, data: seq<Move>, before: seq<nat>, after: seq<nat>, fell: bool)
    requires i < |block| && block[i] < |after| == |before| && block[i] !in block[..i]
    requires (forall u :: u in next ==> u in block[..i]) && DataOk(data, next, before)
    requires forall v :: v in block && v < |after| && v != block[i] ==> after[v] == before[v]
    ensures fell ==> DataOk(data + [Move(block[i], after[block[i]])], next + {block[i]}, after)
    ensures !fell ==> DataOk(data, next, after)
    ensures forall u :: u in next ==> u in block[..i + 1]
  {
    assert forall u :: u in block[..i] ==> u in block;
  }

  /** A block: every vertex ends at or below its own and its in-neighbours' labels as they were before the block,
      and no lower than another in-neighbour has gone; exactly those that fell are reported and sent, with their
      new labels. */
  method PullBlock(block: seq<nat>, inn: seq<seq<nat>>, vals: array<nat>, others: Rivals)
    returns (next: set<nat>, data: seq<Move>)
    requires |inn| == vals.Length && forall u :: 0 <= u < |inn| ==> Within(inn[u], vals.Length)
    requires Within(block, vals.Length) && forall i, j :: 0 <= i < j < |block| ==> block[i] != block[j]
    modifies vals, others
    ensures Fallen(old(vals[..]), vals[..])
    ensures forall i :: 0 <= i < |block| ==> PulledFrom(inn, old(vals[..]), vals[..], next, block[i])
    ensures (forall u :: u in next ==> u in block) && DataOk(data, next, vals[..])
  {
    next, data := {}, [];
    ghost var first := vals[..];
    for i := 0 to |block|
      invariant Fallen(first, vals[..])
      invariant forall j :: i <= j < |block| ==> vals[block[j]] == first[block[j]]
      invariant forall j :: 0 <= j < i ==> PulledFrom(inn, first, vals[..], next, block[j])
      invariant (forall u :: u in next ==> u in block[..i]) && DataOk(data, next, vals[..])
    {
      var u := block[i];
      ghost var before, next0, data0 := vals[..], next, data;
      assert forall j :: 0 <= j < |block| ==> block[j] in block;
      assert u !in block[..i];
      var fell := PullVertex(u, inn[u], vals, block, others);
      UnderEarlier(inn[u], first, before, vals[..][u]);
      if fell {
        next := next + {u};
        data := data + [Move(u, vals[u])];
      }
      Reported(block, i, next0, data0, before, vals[..], fell);
      forall j | 0 <= j < i
        ensures PulledFrom(inn, first, vals[..], next, block[j])
      {
        PulledLater(inn, first, before, vals[..], next0, next, block[j]);
      }
    }
  }

  // ---- PageRank ----

  /** The degree arrays of a memory pool. The setter of the in-degrees writes the out-degree array. */
  class DegreeArrays {
    const inD: array<nat>
    const outD: array<nat>

    constructor (n: nat)
      ensures fresh(inD) && fresh(outD) && inD != outD && inD.Length == outD.Length == n
      ensures forall u :: 0 <= u < n ==> inD[u] == outD[u] == 0
    {
      inD := new nat[n](_ => 0);
      outD := new nat[n](_ => 0);
    }

    method SetInDegree(v: nat, d: nat)
      requires v < outD.Length
      modifies outD
      ensures outD[..] == old(outD[..])[v := d]
    {
      outD[v] := d;
    }

    method SetOutDegree(v: nat, d: nat)
      requires v < outD.Length
      modifies outD
      ensures outD[..] == old(outD[..])[v := d]
    {
      outD[v] := d;
    }

    function GetInDegree(v: nat): nat
      requires v < inD.Length
      reads inD
    {
      inD[v]
    }

    function GetOutDegree(v: nat): nat
      requires v < outD.Length
      reads outD
    {
      outD[v]
    }
  }

  ghost function WithEdges(deg: seq<nat>, count: nat): set<nat> {
    set u: nat | u < count && u < |deg| && deg[u] > 0
  }

  /** `Load` of one vertex. */
  method LoadVertex(u: nat, inDegree: nat, outDegree: nat, pool: DegreeArrays, buf: array<real>, first: Bitmap)
    requires u < pool.outD.Length == buf.Length && first.Valid() && u < 32 * first.words.Length
    requires first.words != pool.outD
    modifies pool.outD, buf, first.words
    ensures pool.outD[..] == old(pool.outD[..])[u := outDegree]
    ensures buf[..] == old(buf[..])[u := PR.FirstShare(outDegree)]
    ensures first.Valid() && first.Contents() == old(first.Contents()) + if outDegree > 0 then {u} else {}
  {
    pool.SetInDegree(u, inDegree);
    pool.SetOutDegree(u, outDegree);
    var val := 1.0;
    if outDegree > 0 {
      val := val / outDegree as real;
      first.Add(u);
    }
    buf[u] := val;
  }

  /** `Load` of every vertex: the out-degrees are right although the in-degrees went to the same array, the in-degrees
      are still zero, and the first buffer and the first active set are those of the rank machine. */
  method LoadRanks(inDeg: seq<nat>, deg: seq<nat>, pool: DegreeArrays, buf: array<real>, first: Bitmap)
    requires |inDeg| == |deg| == pool.inD.Length == pool.outD.Length == buf.Length && pool.inD != pool.outD
    requires first.Valid() && |deg| <= 32 * first.words.Length && first.Contents() == {}
    requires first.words != pool.inD && first.words != pool.outD
    requires forall u :: 0 <= u < |deg| ==> pool.inD[u] == 0
    modifies pool.outD, buf, first.words
    ensures forall u :: 0 <= u < |deg| ==> pool.GetOutDegree(u) == deg[u] && pool.GetInDegree(u) == 0
    ensures forall u :: 0 <= u < |deg| ==> buf[u] == PR.FirstShare(deg[u])
    ensures first.Valid() && first.Contents() == WithEdges(deg, |deg|)
  {
    for u: nat := 0 to |deg|
      invariant first.Valid() && first.Contents() == WithEdges(deg, u)
      invariant forall x :: 0 <= x < u ==> pool.outD[..][x] == deg[x] && buf[..][x] == PR.FirstShare(deg[x])
    {
      LoadVertex(u, inDeg[u], deg[u], pool, buf, first);
      assert WithEdges(deg, u + 1) == WithEdges(deg, u) + if deg[u] > 0 then {u} else {};
    }
    forall u | 0 <= u < |deg|
      ensures pool.GetOutDegree(u) == deg[u] && buf[u] == PR.FirstShare(deg[u])
    {
      assert pool.outD[..][u] == deg[u] && buf[..][u] == PR.FirstShare(deg[u]);
    }
  }

  /** What the in-neighbours hand over, added up in order. */
  function Total(inn: seq<nat>, buf: seq<real>): real
    requires Within(inn, |buf|)
  {
    if inn == [] then 0.0 else Total(inn[..|inn| - 1], buf) + buf[inn[|inn| - 1]]
  }

  function NewShare(inn: seq<nat>, deg: nat, buf: seq<real>): real
    requires deg > 0 && Within(inn, |buf|)
  {
    (0.15 + 0.85 * Total(inn, buf)) / deg as real
  }

  method AddUp(inn: seq<nat>, source: array<real>) returns (accVal: real)
    requires Within(inn, source.Length)
    ensures accVal == Total(inn, source[..])
  {
    accVal := 0.0;
    for i := 0 to |inn|
      invariant accVal == Total(inn[..i], source[..])
    {
      assert inn[..i + 1][..i] == inn[..i];
      accVal := accVal + source[inn[i]];
    }
    assert inn[..|inn|] == inn;
  }

  /** A block reads one buffer and writes the other. */
  method RankBlock(block: seq<nat>, inn: seq<seq<nat>>, deg: seq<nat>, source: array<real>, target: array<real>)
    requires source != target && source.Length == target.Length == |inn| == |deg|
    requires Within(block, |inn|) && forall j :: 0 <= j < |block| ==> deg[block[j]] > 0
    requires forall u :: 0 <= u < |inn| ==> Within(inn[u], |inn|)
    modifies target
    ensures forall j :: 0 <= j < |block| ==> target[block[j]] == NewShare(inn[block[j]], deg[block[j]], source[..])
    ensures forall u :: 0 <= u < |inn| && u !in block ==> target[u] == old(target[u])
  {
    for k := 0 to |block|
      invariant forall j :: 0 <= j < k ==> target[block[j]] == NewShare(inn[block[j]], deg[block[j]], source[..])
      invariant forall u :: 0 <= u < |inn| && u !in block ==> target[u] == old(target[u])
    {
      var u := block[k];
      assert u in block;
      var accVal := AddUp(inn[u], source);
      target[u] := (0.15 + 0.85 * accVal) / deg[u] as real;
    }
  }

  lemma {:induction false} TotalIsGathered(c: PR.Config, k: nat, u: nat, i: nat, buf: seq<real>)
    requires PR.ValidConfig(c) && u < c.n && i <= |c.inn[u]| && |buf| == c.n && Within(c.inn[u], c.n)
    requires forall x: nat :: PR.Active(c, x) ==> buf[x] == PR.Share(c, k, x)
    ensures Total(c.inn[u][..i], buf) == PR.Gathered(c, k, u, i)
  {
    if i > 0 {
      assert c.inn[u][..i][..i - 1] == c.inn[u][..i - 1];
      var x := c.inn[u][i - 1];
      assert x in c.inn[u] && PR.Active(c, x);
      TotalIsGathered(c, k, u, i - 1, buf);
    }
  }

  /** One block's arithmetic is one step of the reference iteration. */
  lemma BlockIsStep(c: PR.Config, k: nat, u: nat, buf: seq<real>)
    requires PR.ValidConfig(c) && PR.Active(c, u) && |buf| == c.n && Within(c.inn[u], c.n)
    requires forall x: nat :: PR.Active(c, x) ==> buf[x] == PR.Share(c, k, x)
    ensures NewShare(c.inn[u], c.deg[u], buf) == PR.Share(c, k + 1, u)
  {
    assert c.inn[u][..|c.inn[u]|] == c.inn[u];
    TotalIsGathered(c, k, u, |c.inn[u]|, buf);
  }
}
