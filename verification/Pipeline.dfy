/** From an edge list to a query result: the graph a prepared edge list stands for, the partition table that
    `split` and `LoadGraphConfig` derive from it, and the queries that run on both. */
module Pipeline {
  import opened Graphs
  import opened Partitions
  import opened MinPropagation
  import C = Csr
  import S = Splitting
  import L = Loading
  import Sssp
  import CC = ConnectedComponents

  /** The edge an arc becomes: weighted graphs derive the weight from the two ids. */
  function ArcEdge(a: C.Arc, weighted: bool): Edge {
    Edge(a.v, if weighted then (a.u + a.v) % 100 else 0)
  }

  /** `u`'s out-edges in input order. */
  function EdgesOf(arcs: seq<C.Arc>, weighted: bool, u: nat): seq<Edge> {
    if arcs == [] then []
    else EdgesOf(arcs[..|arcs| - 1], weighted, u) +
         (if arcs[|arcs| - 1].u == u then [ArcEdge(arcs[|arcs| - 1], weighted)] else [])
  }

  function AsGraph(arcs: seq<C.Arc>, n: nat, weighted: bool): Graph {
    Graph(n, seq(n, u requires 0 <= u => EdgesOf(arcs, weighted, u)))
  }

  /** How `Calc` reads an edge list: a neighbour per word, or a neighbour and a weight per two words. */
  ghost function EdgeWords(es: seq<Edge>, weighted: bool): seq<int> {
    if es == [] then []
    else EdgeWords(es[..|es| - 1], weighted) + C.Item(weighted, es[|es| - 1].dst, es[|es| - 1].w)
  }

  /** The words the loader hands to `Calc` are exactly the graph's edges. */
  lemma {:induction false} WordsAreEdges(arcs: seq<C.Arc>, n: nat, weighted: bool, u: nat)
    requires C.InRange(arcs, n) && n <= 0x4000_0000
    ensures C.OutWords(arcs, n, weighted, u) == EdgeWords(EdgesOf(arcs, weighted, u), weighted)
  {
    if arcs != [] {
      C.InRangeFront(arcs, n);
      var front, a := arcs[..|arcs| - 1], arcs[|arcs| - 1];
      WordsAreEdges(front, n, weighted, u);
      if a.u == u {
        C.WeightInRange(a.u, a.v, n);
        var es := EdgesOf(front, weighted, u);
        assert (es + [ArcEdge(a, weighted)])[..|es|] == es;
      } else {
        assert EdgesOf(front, weighted, u) + [] == EdgesOf(front, weighted, u);
        assert C.OutWords(front, n, weighted, u) + [] == C.OutWords(front, n, weighted, u);
      }
    }
  }

  lemma {:induction false} EdgeIsArc(arcs: seq<C.Arc>, weighted: bool, u: nat, k: nat)
    requires k < |EdgesOf(arcs, weighted, u)|
    ensures exists v: nat :: C.Arc(u, v) in arcs && EdgesOf(arcs, weighted, u)[k] == ArcEdge(C.Arc(u, v), weighted)
  {
    var front, a := arcs[..|arcs| - 1], arcs[|arcs| - 1];
    if k < |EdgesOf(front, weighted, u)| {
      EdgeIsArc(front, weighted, u, k);
    } else {
      assert C.Arc(u, a.v) == a && a in arcs;
    }
  }

  lemma {:induction false} ArcIsEdge(arcs: seq<C.Arc>, weighted: bool, a: C.Arc)
    requires a in arcs
    ensures exists k: nat :: k < |EdgesOf(arcs, weighted, a.u)| && EdgesOf(arcs, weighted, a.u)[k] == ArcEdge(a, weighted)
  {
    var front, last := arcs[..|arcs| - 1], arcs[|arcs| - 1];
    var es := EdgesOf(front, weighted, a.u);
    if last == a {
      assert EdgesOf(arcs, weighted, a.u)[|es|] == ArcEdge(a, weighted);
    } else {
      ArcIsEdge(front, weighted, a);
      var k: nat :| k < |es| && es[k] == ArcEdge(a, weighted);
      assert EdgesOf(arcs, weighted, a.u)[k] == ArcEdge(a, weighted);
    }
  }

  /** The graph has an edge from `u` to `v` exactly when the arc was given; weights are what the arc says. */
  lemma GraphOfArcs(arcs: seq<C.Arc>, n: nat, weighted: bool)
    requires C.InRange(arcs, n)
    ensures WellFormed(AsGraph(arcs, n, weighted))
    ensures forall u: nat, v: nat :: EdgeTo(AsGraph(arcs, n, weighted), u, v) <==> C.Arc(u, v) in arcs
    ensures forall u: nat, k: nat :: HasEdge(AsGraph(arcs, n, weighted), u, k) ==>
      AsGraph(arcs, n, weighted).out[u][k].w ==
        if weighted then (u + AsGraph(arcs, n, weighted).out[u][k].dst) % 100 else 0
  {
    var g := AsGraph(arcs, n, weighted);
    forall u: nat, k: nat | HasEdge(g, u, k)
      ensures g.out[u][k].dst < n && C.Arc(u, g.out[u][k].dst) in arcs
      ensures g.out[u][k].w == if weighted then (u + g.out[u][k].dst) % 100 else 0
    {
      EdgeIsArc(arcs, weighted, u, k);
      var v: nat :| C.Arc(u, v) in arcs && EdgesOf(arcs, weighted, u)[k] == ArcEdge(C.Arc(u, v), weighted);
    }
    forall u: nat, k: nat | u < g.n && k < |g.out[u]|
      ensures g.out[u][k].dst < n
    {
      assert HasEdge(g, u, k);
    }
    forall u: nat, v: nat | C.Arc(u, v) in arcs
      ensures EdgeTo(g, u, v)
    {
      ArcIsEdge(arcs, weighted, C.Arc(u, v));
      var k: nat :| k < |EdgesOf(arcs, weighted, u)| && EdgesOf(arcs, weighted, u)[k] == ArcEdge(C.Arc(u, v), weighted);
      assert HasEdge(g, u, k);
    }
  }

  /** An undirected line contributes both directions. */
  lemma {:induction false} ArcsMember(lines: seq<C.Arc>, directed: bool, a: C.Arc)
    ensures a in C.Arcs(lines, directed) <==> a in lines || (!directed && C.Arc(a.v, a.u) in lines)
  {
    if lines != [] {
      var front, last := lines[..|lines| - 1], lines[|lines| - 1];
      ArcsMember(front, directed, a);
      assert lines == front + [last];
      assert a in lines <==> a in front || a == last;
      assert C.Arc(a.v, a.u) in lines <==> C.Arc(a.v, a.u) in front || C.Arc(a.v, a.u) == last;
    }
  }

  lemma UndirectedIsSymmetric(lines: seq<C.Arc>, n: nat, weighted: bool)
    requires C.InRange(lines, n) && C.InRange(C.Arcs(lines, false), n)
    ensures CC.Symmetric(AsGraph(C.Arcs(lines, false), n, weighted))
  {
    var arcs := C.Arcs(lines, false);
    var g := AsGraph(arcs, n, weighted);
    GraphOfArcs(arcs, n, weighted);
    forall u: nat, k: nat | HasEdge(g, u, k)
      ensures EdgeTo(g, g.out[u][k].dst, u)
    {
      var v := g.out[u][k].dst;
      assert EdgeTo(g, u, v);
      ArcsMember(lines, false, C.Arc(u, v));
      ArcsMember(lines, false, C.Arc(v, u));
    }
  }

  // ---- The partition table ----

  function TotalEdges(lines: seq<C.Arc>, directed: bool): nat { if directed then |lines| else 2 * |lines| }

  lemma {:induction false} ArcsLength(lines: seq<C.Arc>, directed: bool)
    ensures |C.Arcs(lines, directed)| == TotalEdges(lines, directed)
  {
    if lines != [] { ArcsLength(lines[..|lines| - 1], directed); }
  }

  /** The load of each vertex of an edge list: its in- and out-edges. */
  ghost function Loads(arcs: seq<C.Arc>, n: nat): (d: seq<nat>)
    ensures |d| == n && forall x: nat :: x < n ==> d[x] == C.InDegree(arcs, x) + C.OutDegree(arcs, x)
  {
    seq(n, x requires 0 <= x < n => C.InDegree(arcs, x) + C.OutDegree(arcs, x))
  }

  lemma DegreesOfLines(lines: seq<C.Arc>, n: nat, directed: bool, i: seq<nat>, o: seq<nat>)
    requires C.InRange(lines, n) && |i| == |o| == n
    requires forall x: nat :: x < n ==> i[x] == C.InDegree(C.Arcs(lines, directed), x)
    requires forall x: nat :: x < n ==> o[x] == C.OutDegree(C.Arcs(lines, directed), x)
    ensures S.Degrees(i, o) == Loads(C.Arcs(lines, directed), n)
    ensures C.Prefix(S.Degrees(i, o), n) == 2 * TotalEdges(lines, directed)
  {
    C.ArcsInRange(lines, n, directed);
    S.DegreesSum(C.Arcs(lines, directed), n, i, o);
    ArcsLength(lines, directed);
  }

  /** A start-node file as `split` writes it. */
  ghost predicate StartFile(file: seq<nat>, n: nat, partition: nat) {
    && |file| > 0 && file[0] == 0 && file[|file| - 1] == n && |file| - 1 <= partition
    && forall i, j :: 0 <= i < j < |file| ==> file[i] < file[j]
  }

  /** The start nodes of the partitions as the configuration reads them from the file. */
  ghost function Starts(file: seq<nat>, partition: nat): (s: seq<nat>)
    requires |file| > 0
    ensures |s| == partition && forall i :: 0 <= i < partition ==> s[i] == S.Entry(file, i)
  {
    seq(partition, i requires 0 <= i < partition => S.Entry(file, i))
  }

  /** `split` on an edge list: strictly increasing bounds from 0 to `n` that balance the edges. */
  method SplitLines(lines: seq<C.Arc>, n: nat, directed: bool, partition: nat) returns (file: seq<nat>)
    requires C.InRange(lines, n) && partition >= 1
    ensures StartFile(file, n, partition)
    ensures S.Balanced(file, Loads(C.Arcs(lines, directed), n), 2 * TotalEdges(lines, directed), partition)
  {
    var inDegree, outDegree := C.CountDegrees(lines, n, directed);
    var totalEdge := TotalEdges(lines, directed);
    DegreesOfLines(lines, n, directed, inDegree[..], outDegree[..]);
    file := S.Split(inDegree, outDegree, totalEdge, partition);
  }

  method TableOf(startNodes: seq<nat>, sizes: map<nat, nat>) returns (parts: Parts)
    requires forall i :: 0 <= i < |startNodes| ==> startNodes[i] in sizes
    ensures parts.start == startNodes && |parts.size| == |startNodes|
    ensures forall i :: 0 <= i < |startNodes| ==> parts.size[i] == sizes[startNodes[i]]
  {
    parts := Parts(startNodes, seq(|startNodes|, i requires 0 <= i < |startNodes| => sizes[startNodes[i]]));
  }

  ghost predicate RowOk(parts: Parts, n: nat, p: nat)
    requires p < |parts.start| == |parts.size|
  {
    parts.start[p] + parts.size[p] == S.Bounds(parts.start, n)[p + 1] <= n
  }

  /** The table of a start-node file. */
  ghost predicate TableOk(parts: Parts, file: seq<nat>, n: nat) {
    && |parts.start| == |parts.size| && StartFile(file, n, |parts.start|) && parts.start == Starts(file, |parts.start|)
    && forall p: nat :: p < |parts.start| ==> RowOk(parts, n, p)
  }

  /** The configuration's table for a start-node file: every vertex has exactly one owner, also when the split
      needed fewer segments than there are partitions. */
  method ReadTable(file: seq<nat>, n: nat, partition: nat) returns (parts: Parts)
    requires StartFile(file, n, partition) && partition >= 1
    ensures Covers(parts, n) && |parts.start| == partition && TableOk(parts, file, n)
  {
    var startNodes, sizes := S.LoadGraphConfig(file, partition, n);
    parts := TableOf(startNodes, sizes);
    S.TableCovers(startNodes, n, parts);
    assert startNodes == Starts(file, partition);
    forall p: nat | p < partition
      ensures RowOk(parts, n, p)
    {
      assert S.Bounds(startNodes, n)[p + 1] <= S.Bounds(startNodes, n)[partition];
    }
  }

  /** Every partition that has vertices carries, without its last one, at most its share of the total load; and with
      it more than its share, unless it ends the graph. */
  ghost predicate BalancedTable(parts: Parts, degree: seq<nat>, total: nat)
    requires |parts.start| == |parts.size|
  {
    forall p :: 0 <= p < |parts.start| && parts.size[p] > 0 ==>
      S.FairShare(degree, total, |parts.start|, parts.start[p], parts.start[p] + parts.size[p])
  }

  /** The segments of the start-node file are the partitions that have vertices. */
  lemma TableBalances(parts: Parts, file: seq<nat>, degree: seq<nat>, total: nat)
    requires TableOk(parts, file, |degree|) && S.Balanced(file, degree, total, |parts.start|)
    ensures BalancedTable(parts, degree, total)
  {
    forall p | 0 <= p < |parts.start| && parts.size[p] > 0
      ensures S.FairShare(degree, total, |parts.start|, parts.start[p], parts.start[p] + parts.size[p])
    {
      assert RowOk(parts, |degree|, p);
      var i := p + 1;
      assert i < |file| && parts.start[p] == file[i - 1] && parts.start[p] + parts.size[p] == file[i];
    }
  }

  /** Degrees, split, configuration: for every edge list and partition count the table covers the vertices, and its
      partitions balance the edges. */
  method BuildTable(lines: seq<C.Arc>, n: nat, directed: bool, partition: nat) returns (parts: Parts)
    requires C.InRange(lines, n) && partition >= 1
    ensures Covers(parts, n) && |parts.start| == |parts.size| == partition
    ensures BalancedTable(parts, Loads(C.Arcs(lines, directed), n), 2 * TotalEdges(lines, directed))
  {
    var file := SplitLines(lines, n, directed, partition);
    parts := ReadTable(file, n, partition);
    TableBalances(parts, file, Loads(C.Arcs(lines, directed), n), 2 * TotalEdges(lines, directed));
  }

  // ---- Loading what the table says ----

  /** The first vertex after a start node, searched for in the start-node file, is where the table ends the
      partition; also for the empty partitions of a file with few entries. */
  lemma NextIsTableEnd(file: seq<nat>, n: nat, partition: nat, p: nat)
    requires StartFile(file, n, partition) && p < partition
    ensures Starts(file, partition)[p] in file
    ensures L.NextStart(file, n, Starts(file, partition)[p]) == S.Bounds(Starts(file, partition), n)[p + 1]
  {
    var at := if p < |file| then p else |file| - 1;
    var startNodes := Starts(file, partition);
    assert startNodes[p] == file[at];
    assert L.FirstIndex(file, file[at]) == at;
  }

  /** The local offsets of partition `p` fit an int32. */
  ghost predicate PartFits(arcs: seq<C.Arc>, n: nat, weighted: bool, parts: Parts, p: nat)
    requires C.InRange(arcs, n) && p < |parts.start| == |parts.size|
  {
    && parts.start[p] + parts.size[p] <= n
    && L.FitsI32(C.Lists(arcs, n, weighted, true), parts.start[p], parts.start[p] + parts.size[p])
    && L.FitsI32(C.Lists(arcs, n, weighted, false), parts.start[p], parts.start[p] + parts.size[p])
  }

  /** `part` answers for the vertices the table gives partition `p`. */
  ghost predicate LoadedAs(part: L.GraphPartition, arcs: seq<C.Arc>, n: nat, weighted: bool, parts: Parts, p: nat)
    requires p < |parts.start| == |parts.size|
    reads part
  {
    && part.startNode == parts.start[p] && part.totalNode == n && part.weighted == weighted
    && part.Loaded(arcs, parts.start[p] + parts.size[p], true, true)
  }

  /** Loading partition `p` of a prepared edge list: its edges are those of the graph, for exactly the vertices the
      table gives it. */
  method LoadPartition(f: C.Files, file: seq<nat>, parts: Parts, n: nat, weighted: bool, p: nat, ghost arcs: seq<C.Arc>)
    returns (part: L.GraphPartition)
    requires C.InRange(arcs, n) && C.Prepared(f, arcs, n, weighted)
    requires TableOk(parts, file, n) && p < |parts.start| && PartFits(arcs, n, weighted, parts, p)
    ensures fresh(part) && LoadedAs(part, arcs, n, weighted, parts, p)
  {
    NextIsTableEnd(file, n, |parts.start|, p);
    assert RowOk(parts, n, p);
    part := new L.GraphPartition(parts.start[p], n, weighted);
    part.LoadGraph(f, file, true, true, arcs);
  }

  ghost predicate AllLoaded(loaded: seq<L.GraphPartition>, arcs: seq<C.Arc>, n: nat, weighted: bool, parts: Parts, count: nat)
    requires count <= |loaded| && count <= |parts.start| == |parts.size|
    reads loaded
  {
    forall p: nat :: p < count ==> LoadedAs(loaded[p], arcs, n, weighted, parts, p)
  }

  lemma OneMoreLoaded(loaded: seq<L.GraphPartition>, part: L.GraphPartition, arcs: seq<C.Arc>, n: nat, weighted: bool, parts: Parts)
    requires |loaded| < |parts.start| == |parts.size| && AllLoaded(loaded, arcs, n, weighted, parts, |loaded|)
    requires LoadedAs(part, arcs, n, weighted, parts, |loaded|)
    ensures AllLoaded(loaded + [part], arcs, n, weighted, parts, |loaded| + 1)
  {
    forall p: nat | p < |loaded| + 1
      ensures LoadedAs((loaded + [part])[p], arcs, n, weighted, parts, p)
    {
      if p < |loaded| { assert LoadedAs(loaded[p], arcs, n, weighted, parts, p); }
    }
  }

  method LoadNext(loaded: seq<L.GraphPartition>, f: C.Files, file: seq<nat>, parts: Parts, n: nat, weighted: bool,
                  ghost arcs: seq<C.Arc>) returns (more: seq<L.GraphPartition>)
    requires C.InRange(arcs, n) && C.Prepared(f, arcs, n, weighted)
    requires TableOk(parts, file, n) && |loaded| < |parts.start| && PartFits(arcs, n, weighted, parts, |loaded|)
    requires AllLoaded(loaded, arcs, n, weighted, parts, |loaded|)
    ensures |more| == |loaded| + 1 && AllLoaded(more, arcs, n, weighted, parts, |more|)
  {
    var part := LoadPartition(f, file, parts, n, weighted, |loaded|, arcs);
    assert AllLoaded(loaded, arcs, n, weighted, parts, |loaded|);
    OneMoreLoaded(loaded, part, arcs, n, weighted, parts);
    more := loaded + [part];
  }

  /** Every partition is loaded. */
  method LoadAll(f: C.Files, file: seq<nat>, parts: Parts, n: nat, weighted: bool, ghost arcs: seq<C.Arc>)
    returns (loaded: seq<L.GraphPartition>)
    requires C.InRange(arcs, n) && C.Prepared(f, arcs, n, weighted)
    requires TableOk(parts, file, n)
    requires forall p: nat :: p < |parts.start| ==> PartFits(arcs, n, weighted, parts, p)
    ensures |loaded| == |parts.start| && AllLoaded(loaded, arcs, n, weighted, parts, |loaded|)
  {
    loaded := [];
    for p: nat := 0 to |parts.start|
      invariant |loaded| == p && AllLoaded(loaded, arcs, n, weighted, parts, p)
    {
      loaded := LoadNext(loaded, f, file, parts, n, weighted, arcs);
    }
  }

  // ---- Reading the graph back ----

  /** What `Calc` gets to see of a vertex is its edge list in the graph. */
  method ReadVertex(part: L.GraphPartition, u: nat, ghost arcs: seq<C.Arc>, ghost next: nat) returns (words: seq<int>)
    requires part.totalNode <= 0x4000_0000 && part.Loaded(arcs, next, true, true) && part.startNode <= u < next
    ensures u < part.totalNode
    ensures words == EdgeWords(AsGraph(arcs, part.totalNode, part.weighted).out[u], part.weighted)
  {
    WordsAreEdges(arcs, part.totalNode, part.weighted, u);
    words := part.OutEdge(u, arcs, next, true);
  }

  lemma {:induction false} EdgeWordsSize(es: seq<Edge>, weighted: bool)
    ensures |EdgeWords(es, weighted)| == |es| * C.Stride(weighted)
  {
    if es != [] { EdgeWordsSize(es[..|es| - 1], weighted); }
  }

  lemma {:induction false} WordsOfEdge(es: seq<Edge>, weighted: bool, i: nat)
    requires i < |es|
    ensures |EdgeWords(es, weighted)| == |es| * C.Stride(weighted)
    ensures i * C.Stride(weighted) + C.Stride(weighted) <= |EdgeWords(es, weighted)|
    ensures EdgeWords(es, weighted)[i * C.Stride(weighted)] == es[i].dst
    ensures weighted ==> EdgeWords(es, weighted)[i * C.Stride(weighted) + 1] == es[i].w
  {
    var front, last := es[..|es| - 1], |es| - 1;
    EdgeWordsSize(front, weighted);
    if i < last { WordsOfEdge(front, weighted, i); }
  }

  ghost predicate NoWeights(es: seq<Edge>) {
    forall i :: 0 <= i < |es| ==> es[i].w == 0
  }

  /** The scan over a vertex's words that every `Calc` makes: a neighbour per word, or a neighbour and a weight per
      two words. */
  method ScanWords(words: seq<int>, weighted: bool, ghost es: seq<Edge>) returns (edges: seq<Edge>)
    requires words == EdgeWords(es, weighted) && (weighted || NoWeights(es))
    ensures edges == es
  {
    edges := [];
    EdgeWordsSize(es, weighted);
    var i := 0;
    while i < |words|
      invariant |edges| <= |es| && i == |edges| * C.Stride(weighted) && edges == es[..|edges|]
      decreases |words| - i
    {
      WordsOfEdge(es, weighted, |edges|);
      edges := edges + [if weighted then Edge(words[i], words[i + 1]) else Edge(words[i], 0)];
      i := i + C.Stride(weighted);
    }
  }

  method OwnerOf(parts: Parts, n: nat, u: nat) returns (p: nat)
    requires Covers(parts, n) && u < n
    ensures Owns(parts, p, u)
  {
    assert Owned(parts, u);
    p := 0;
    while p < |parts.start| && !Owns(parts, p, u)
      invariant p <= |parts.start| && forall q: nat :: q < p ==> !Owns(parts, q, u)
    {
      p := p + 1;
    }
  }

  lemma {:induction false} UnweightedEdges(arcs: seq<C.Arc>, u: nat)
    ensures NoWeights(EdgesOf(arcs, false, u))
  {
    if arcs != [] { UnweightedEdges(arcs[..|arcs| - 1], u); }
  }

  /** The edges of a vertex, as its owner scans them. */
  method ReadEdges(loaded: seq<L.GraphPartition>, parts: Parts, n: nat, weighted: bool, u: nat, ghost arcs: seq<C.Arc>)
    returns (edges: seq<Edge>)
    requires C.InRange(arcs, n) && n <= 0x4000_0000 && Covers(parts, n) && |loaded| == |parts.start| && u < n
    requires AllLoaded(loaded, arcs, n, weighted, parts, |loaded|)
    ensures edges == EdgesOf(arcs, weighted, u)
  {
    var p := OwnerOf(parts, n, u);
    assert LoadedAs(loaded[p], arcs, n, weighted, parts, p);
    var words := ReadVertex(loaded[p], u, arcs, parts.start[p] + parts.size[p]);
    if !weighted { UnweightedEdges(arcs, u); }
    edges := ScanWords(words, weighted, EdgesOf(arcs, weighted, u));
  }

  /** What the loaded partitions give to the scans, vertex by vertex: exactly the graph. */
  method ReadGraph(loaded: seq<L.GraphPartition>, parts: Parts, n: nat, weighted: bool, ghost arcs: seq<C.Arc>)
    returns (g: Graph)
    requires C.InRange(arcs, n) && n <= 0x4000_0000 && Covers(parts, n) && |loaded| == |parts.start|
    requires AllLoaded(loaded, arcs, n, weighted, parts, |loaded|)
    ensures g == AsGraph(arcs, n, weighted)
  {
    var out := [];
    for u: nat := 0 to n
      invariant |out| == u && forall x :: 0 <= x < u ==> out[x] == EdgesOf(arcs, weighted, x)
    {
      var edges := ReadEdges(loaded, parts, n, weighted, u, arcs);
      out := out + [edges];
    }
    g := Graph(n, out);
  }

  // ---- From an edge list to a query result ----

  /** `txt2csr` and `split`: for every edge list and partition count, the files a query starts from. */
  method PrepareGraph(lines: seq<C.Arc>, n: nat, directed: bool, weighted: bool, partition: nat)
    returns (f: C.Files, file: seq<nat>)
    requires C.InRange(lines, n) && partition >= 1
    ensures C.InRange(C.Arcs(lines, directed), n) && C.Prepared(f, C.Arcs(lines, directed), n, weighted)
    ensures StartFile(file, n, partition)
    ensures S.Balanced(file, Loads(C.Arcs(lines, directed), n), 2 * TotalEdges(lines, directed), partition)
  {
    f := C.Prepare(lines, n, directed, weighted);
    file := SplitLines(lines, n, directed, partition);
  }

  /** Where the vertex values live: a replica per host, `host[p]` being that of partition `p`, or one per partition. */
  datatype Placement = Shared(host: seq<nat>, hosts: nat) | PerPartition

  /** Without shared memory partitions with the same start node would get one key, and all but one of their
      containers no memory. */
  ghost predicate Placed(place: Placement, starts: seq<nat>) {
    match place
    case Shared(host, hosts) => |host| == |starts| && forall p :: 0 <= p < |host| ==> host[p] < hosts
    case PerPartition => forall p, q :: 0 <= p < q < |starts| ==> starts[p] != starts[q]
  }

  /** A replica per partition is possible exactly when at most one partition is empty. */
  lemma StartsDistinct(file: seq<nat>, n: nat, partition: nat)
    requires StartFile(file, n, partition)
    ensures Placed(PerPartition, Starts(file, partition)) <==> partition <= |file|
  {
    var starts := Starts(file, partition);
    if partition > |file| {
      assert starts[|file| - 1] == starts[|file|] == n;
    }
  }

  function ReplicaOf(place: Placement, partition: nat): seq<nat> {
    if place.Shared? then place.host else seq(partition, p requires 0 <= p => p)
  }

  function Replicas(place: Placement, partition: nat): nat { if place.Shared? then place.hosts else partition }

  /** The offsets of every partition fit an int32. */
  ghost predicate AllFit(arcs: seq<C.Arc>, n: nat, weighted: bool, starts: seq<nat>)
    requires C.InRange(arcs, n)
  {
    forall p :: 0 <= p < |starts| && starts[p] <= S.Bounds(starts, n)[p + 1] <= n ==>
      && L.FitsI32(C.Lists(arcs, n, weighted, true), starts[p], S.Bounds(starts, n)[p + 1])
      && L.FitsI32(C.Lists(arcs, n, weighted, false), starts[p], S.Bounds(starts, n)[p + 1])
  }

  /** Configuration, loading and reading: the graph and the table the query runs on. */
  method Deploy(f: C.Files, file: seq<nat>, n: nat, weighted: bool, partition: nat, ghost arcs: seq<C.Arc>)
    returns (g: Graph, parts: Parts)
    requires C.InRange(arcs, n) && n <= 0x4000_0000 && C.Prepared(f, arcs, n, weighted)
    requires StartFile(file, n, partition) && partition >= 1 && AllFit(arcs, n, weighted, Starts(file, partition))
    ensures g == AsGraph(arcs, n, weighted) && WellFormed(g)
    ensures Covers(parts, n) && |parts.start| == partition
  {
    parts := ReadTable(file, n, partition);
    forall p: nat | p < partition
      ensures PartFits(arcs, n, weighted, parts, p)
    {
      assert RowOk(parts, n, p) && Starts(file, partition)[p] == parts.start[p];
    }
    var loaded := LoadAll(f, file, parts, n, weighted, arcs);
    g := ReadGraph(loaded, parts, n, weighted, arcs);
    GraphOfArcs(arcs, n, weighted);
  }

  /** The derived weights are at most 99, so distances stay below the cap in every graph of up to 21691744 vertices. */
  lemma WeightsFarFromCap(arcs: seq<C.Arc>, n: nat)
    requires C.InRange(arcs, n) && 99 * (n - 1) < 2147482647
    ensures Sssp.FarFromCap(AsGraph(arcs, n, true))
  {
    var g := AsGraph(arcs, n, true);
    GraphOfArcs(arcs, n, true);
    forall u: nat, k: nat | HasEdge(g, u, k)
      ensures g.out[u][k].w <= 99
    {
    }
    assert Sssp.WeightsAtMost(g, 99);
  }

  /** Shortest paths from vertex 0 on the files of any edge list, for every partition count, placement and
      scheduler: the distances, and 2147482647 exactly for the vertices that cannot be reached. In a graph so large
      that a distance could reach that value, the distances are capped there. */
  method ShortestPaths(f: C.Files, file: seq<nat>, n: nat, partition: nat, place: Placement,
                       pick: (nat, State) -> Action, ghost arcs: seq<C.Arc>) returns (dist: seq<seq<nat>>)
    requires C.InRange(arcs, n) && n <= 0x4000_0000 && C.Prepared(f, arcs, n, true)
    requires StartFile(file, n, partition) && partition >= 1 && AllFit(arcs, n, true, Starts(file, partition))
    requires Placed(place, Starts(file, partition))
    ensures WellFormed(AsGraph(arcs, n, true))
    ensures |dist| == Replicas(place, partition) && forall r :: 0 <= r < |dist| ==> |dist[r]| == n
    ensures forall r: nat, v: nat :: r < |dist| && v < n ==> Sssp.CappedDistance(AsGraph(arcs, n, true), v, dist[r][v])
    ensures 99 * (n - 1) < 2147482647 ==>
      forall r: nat, v: nat :: r < |dist| && v < n ==> Sssp.ExactDistance(AsGraph(arcs, n, true), v, dist[r][v])
  {
    var g, parts := Deploy(f, file, n, true, partition, arcs);
    GraphOfArcs(arcs, n, true);
    if 99 * (n - 1) < 2147482647 { WeightsFarFromCap(arcs, n); }
    var rounds;
    dist, rounds := Sssp.Query(g, parts, ReplicaOf(place, partition), Replicas(place, partition), pick);
  }

  /** Connected components of an undirected edge list: two vertices end with the same label exactly when
      a path connects them. */
  method Components(f: C.Files, file: seq<nat>, n: nat, partition: nat, place: Placement,
                    pick: (nat, State) -> Action, ghost lines: seq<C.Arc>) returns (labels: seq<seq<nat>>)
    requires C.InRange(lines, n) && C.InRange(C.Arcs(lines, false), n) && n <= 0x4000_0000
    requires C.Prepared(f, C.Arcs(lines, false), n, false)
    requires StartFile(file, n, partition) && partition >= 1
    requires AllFit(C.Arcs(lines, false), n, false, Starts(file, partition)) && Placed(place, Starts(file, partition))
    ensures WellFormed(AsGraph(C.Arcs(lines, false), n, false))
    ensures |labels| == Replicas(place, partition) && forall r :: 0 <= r < |labels| ==> |labels[r]| == n
    ensures forall r: nat, u: nat, v: nat :: r < |labels| && u < n && v < n ==>
      (labels[r][u] == labels[r][v] <==> Reaches(AsGraph(C.Arcs(lines, false), n, false), u, v))
  {
    var g, parts := Deploy(f, file, n, false, partition, C.Arcs(lines, false));
    UndirectedIsSymmetric(lines, n, false);
    GraphOfArcs(C.Arcs(lines, false), n, false);
    var rounds;
    labels, rounds := CC.Query(g, parts, ReplicaOf(place, partition), Replicas(place, partition), pick);
    forall r: nat, u: nat, v: nat | r < |labels| && u < n && v < n
      ensures labels[r][u] == labels[r][v] <==> Reaches(g, u, v)
    {
      CC.LabelsAreComponents(g, u, v, labels[r][u], labels[r][v]);
    }
  }
}
