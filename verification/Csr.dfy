/** Graph preparation: an edge list becomes degree counts, adjacency lists, prefix-sum offsets and one edge
    file per direction. */
module Csr {
  import opened Sequences

  /** One directed edge. */
  datatype Arc = Arc(u: nat, v: nat)

  // ---- Reference: plain adjacency ----

  /** The directed edges an input line stands for, in the order they are added. */
  function Arcs(lines: seq<Arc>, directed: bool): seq<Arc> {
    if lines == [] then []
    else
      var last := lines[|lines| - 1];
      Arcs(lines[..|lines| - 1], directed) + [last] + (if directed then [] else [Arc(last.v, last.u)])
  }

  /** int32 addition. */
  function AddI32(a: nat, b: nat): int
    requires a < 0x8000_0000 && b < 0x8000_0000
  {
    if a + b < 0x8000_0000 then a + b else a + b - 0x1_0000_0000
  }

  /** The remainder by 100 of a quotient that truncates toward zero. */
  function Rem100(x: int): int { if x >= 0 then x % 100 else -((-x) % 100) }

  function Weight(u: nat, v: nat): int
    requires u < 0x8000_0000 && v < 0x8000_0000
  {
    Rem100(AddI32(u, v))
  }

  function Stride(weighted: bool): nat { if weighted then 2 else 1 }

  /** What one edge puts in a list: the neighbour, and the weight when the graph is weighted. */
  function Item(weighted: bool, far: nat, w: int): (s: seq<int>)
    ensures |s| == Stride(weighted)
  {
    if weighted then [far, w] else [far]
  }

  predicate InRange(arcs: seq<Arc>, n: nat) {
    n <= 0x7fff_ffff && forall a :: a in arcs ==> a.u < n && a.v < n
  }

  lemma InRangeFront(arcs: seq<Arc>, n: nat)
    requires InRange(arcs, n) && arcs != []
    ensures InRange(arcs[..|arcs| - 1], n) && arcs[|arcs| - 1].u < n && arcs[|arcs| - 1].v < n
  {
    assert arcs[|arcs| - 1] in arcs;
  }

  /** The words of `u`'s out-list: its out-edges in input order. */
  ghost function OutWords(arcs: seq<Arc>, n: nat, weighted: bool, u: nat): seq<int>
    requires InRange(arcs, n)
  {
    if arcs == [] then []
    else
      InRangeFront(arcs, n);
      var a := arcs[|arcs| - 1];
      OutWords(arcs[..|arcs| - 1], n, weighted, u) +
      (if a.u == u then Item(weighted, a.v, Weight(a.u, a.v)) else [])
  }

  /** The words of `v`'s in-list: its in-edges in input order. */
  ghost function InWords(arcs: seq<Arc>, n: nat, weighted: bool, v: nat): seq<int>
    requires InRange(arcs, n)
  {
    if arcs == [] then []
    else
      InRangeFront(arcs, n);
      var a := arcs[|arcs| - 1];
      InWords(arcs[..|arcs| - 1], n, weighted, v) +
      (if a.v == v then Item(weighted, a.u, Weight(a.u, a.v)) else [])
  }

  ghost function OutDegree(arcs: seq<Arc>, u: nat): nat {
    if arcs == [] then 0
    else OutDegree(arcs[..|arcs| - 1], u) + (if arcs[|arcs| - 1].u == u then 1 else 0)
  }

  ghost function InDegree(arcs: seq<Arc>, v: nat): nat {
    if arcs == [] then 0
    else InDegree(arcs[..|arcs| - 1], v) + (if arcs[|arcs| - 1].v == v then 1 else 0)
  }

  lemma {:induction false} WordsPerEdge(arcs: seq<Arc>, n: nat, weighted: bool, x: nat)
    requires InRange(arcs, n)
    ensures |OutWords(arcs, n, weighted, x)| == Stride(weighted) * OutDegree(arcs, x)
    ensures |InWords(arcs, n, weighted, x)| == Stride(weighted) * InDegree(arcs, x)
  {
    if arcs != [] {
      InRangeFront(arcs, n);
      WordsPerEdge(arcs[..|arcs| - 1], n, weighted, x);
    }
  }

  lemma {:induction false} ArcsInRange(lines: seq<Arc>, n: nat, directed: bool)
    requires InRange(lines, n)
    ensures InRange(Arcs(lines, directed), n)
  {
    if lines != [] {
      InRangeFront(lines, n);
      ArcsInRange(lines[..|lines| - 1], n, directed);
    }
  }

  /** The weights of a graph with at most `2^30` vertices never overflow and lie in `0..99`. */
  lemma WeightInRange(u: nat, v: nat, n: nat)
    requires u < n && v < n && n <= 0x4000_0000
    ensures 0 <= Weight(u, v) <= 99
    ensures Weight(u, v) == (u + v) % 100 == Weight(v, u)
  {
  }

  // ---- The in-lists transpose the out-lists ----

  /** How often `x` occurs as a neighbour in a list. */
  ghost function Occurs(list: seq<int>, weighted: bool, x: int): nat
    decreases |list|
  {
    if |list| < Stride(weighted) then 0
    else Occurs(list[..|list| - Stride(weighted)], weighted, x) +
         (if list[|list| - Stride(weighted)] == x then 1 else 0)
  }

  lemma OccursAppend(list: seq<int>, weighted: bool, far: nat, w: int, x: int)
    ensures Occurs(list + Item(weighted, far, w), weighted, x) == Occurs(list, weighted, x) + (if far == x then 1 else 0)
  {
    var longer := list + Item(weighted, far, w);
    assert longer[..|longer| - Stride(weighted)] == list;
  }

  lemma OneMore(arcs: seq<Arc>, a: Arc)
    requires arcs != []
    ensures multiset(arcs)[a] == multiset(arcs[..|arcs| - 1])[a] + (if arcs[|arcs| - 1] == a then 1 else 0)
  {
    assert arcs == arcs[..|arcs| - 1] + [arcs[|arcs| - 1]];
  }

  lemma {:induction false} OutOccurs(arcs: seq<Arc>, n: nat, weighted: bool, u: nat, v: nat)
    requires InRange(arcs, n)
    ensures Occurs(OutWords(arcs, n, weighted, u), weighted, v) == multiset(arcs)[Arc(u, v)]
  {
    if arcs != [] {
      InRangeFront(arcs, n);
      var front, a := arcs[..|arcs| - 1], arcs[|arcs| - 1];
      OutOccurs(front, n, weighted, u, v);
      OneMore(arcs, Arc(u, v));
      var words := OutWords(front, n, weighted, u);
      if a.u == u { OccursAppend(words, weighted, a.v, Weight(a.u, a.v), v); } else { assert words + [] == words; }
    }
  }

  lemma {:induction false} InOccurs(arcs: seq<Arc>, n: nat, weighted: bool, u: nat, v: nat)
    requires InRange(arcs, n)
    ensures Occurs(InWords(arcs, n, weighted, v), weighted, u) == multiset(arcs)[Arc(u, v)]
  {
    if arcs != [] {
      InRangeFront(arcs, n);
      var front, a := arcs[..|arcs| - 1], arcs[|arcs| - 1];
      InOccurs(front, n, weighted, u, v);
      OneMore(arcs, Arc(u, v));
      var words := InWords(front, n, weighted, v);
      if a.v == v { OccursAppend(words, weighted, a.u, Weight(a.u, a.v), u); } else { assert words + [] == words; }
    }
  }

  /** `v` occurs in `u`'s out-list as often as `u` occurs in `v`'s in-list: as often as the edge was given. */
  lemma Transposed(arcs: seq<Arc>, n: nat, weighted: bool, u: nat, v: nat)
    requires InRange(arcs, n)
    ensures Occurs(OutWords(arcs, n, weighted, u), weighted, v) == multiset(arcs)[Arc(u, v)]
    ensures Occurs(InWords(arcs, n, weighted, v), weighted, u) == multiset(arcs)[Arc(u, v)]
  {
    OutOccurs(arcs, n, weighted, u, v);
    InOccurs(arcs, n, weighted, u, v);
  }

  // ---- Reading the edge list ----

  ghost predicate ListsMatch(inList: array<seq<int>>, outList: array<seq<int>>, arcs: seq<Arc>, n: nat, weighted: bool)
    requires InRange(arcs, n)
    reads inList, outList
  {
    && inList.Length == outList.Length == n
    && (forall u :: 0 <= u < n ==> outList[u] == OutWords(arcs, n, weighted, u))
    && (forall v :: 0 <= v < n ==> inList[v] == InWords(arcs, n, weighted, v))
  }

  method AddEdge(u: nat, v: nat, inList: array<seq<int>>, outList: array<seq<int>>, weighted: bool,
                 ghost arcs: seq<Arc>, ghost n: nat)
    requires InRange(arcs, n) && u < n && v < n && inList != outList
    requires ListsMatch(inList, outList, arcs, n, weighted)
    modifies inList, outList
    ensures InRange(arcs + [Arc(u, v)], n) && ListsMatch(inList, outList, arcs + [Arc(u, v)], n, weighted)
  {
    inList[v] := inList[v] + [u as int];
    if weighted { inList[v] := inList[v] + [Weight(u, v)]; }
    outList[u] := outList[u] + [v as int];
    if weighted { outList[u] := outList[u] + [Weight(u, v)]; }
    assert (arcs + [Arc(u, v)])[..|arcs|] == arcs;
  }

  ghost predicate DegreesMatch(inDegree: array<nat>, outDegree: array<nat>, arcs: seq<Arc>, n: nat)
    reads inDegree, outDegree
  {
    && inDegree.Length == outDegree.Length == n
    && (forall u :: 0 <= u < n ==> outDegree[u] == OutDegree(arcs, u))
    && (forall v :: 0 <= v < n ==> inDegree[v] == InDegree(arcs, v))
  }

  lemma DegreesAppend(arcs: seq<Arc>, a: Arc, x: nat)
    ensures OutDegree(arcs + [a], x) == OutDegree(arcs, x) + (if a.u == x then 1 else 0)
    ensures InDegree(arcs + [a], x) == InDegree(arcs, x) + (if a.v == x then 1 else 0)
  {
    assert (arcs + [a])[..|arcs|] == arcs;
  }

  method Count(u: nat, v: nat, inDegree: array<nat>, outDegree: array<nat>, ghost arcs: seq<Arc>, ghost n: nat)
    requires u < n && v < n && inDegree != outDegree && DegreesMatch(inDegree, outDegree, arcs, n)
    modifies inDegree, outDegree
    ensures DegreesMatch(inDegree, outDegree, arcs + [Arc(u, v)], n)
  {
    inDegree[v] := inDegree[v] + 1;
    outDegree[u] := outDegree[u] + 1;
    forall x: nat | x < n
      ensures outDegree[x] == OutDegree(arcs + [Arc(u, v)], x) && inDegree[x] == InDegree(arcs + [Arc(u, v)], x)
    {
      DegreesAppend(arcs, Arc(u, v), x);
    }
  }

  lemma DegreesCommute(arcs: seq<Arc>, a: Arc, b: Arc, x: nat)
    ensures OutDegree(arcs + [a] + [b], x) == OutDegree(arcs + [b] + [a], x)
    ensures InDegree(arcs + [a] + [b], x) == InDegree(arcs + [b] + [a], x)
  {
    DegreesAppend(arcs, a, x);
    DegreesAppend(arcs, b, x);
    DegreesAppend(arcs + [a], b, x);
    DegreesAppend(arcs + [b], a, x);
  }

  /** First pass: count; of an undirected line the reverse edge is counted first. */
  method CountDegrees(lines: seq<Arc>, n: nat, directed: bool) returns (inDegree: array<nat>, outDegree: array<nat>)
    requires InRange(lines, n)
    ensures fresh(inDegree) && fresh(outDegree) && inDegree != outDegree
    ensures DegreesMatch(inDegree, outDegree, Arcs(lines, directed), n)
  {
    inDegree := new nat[n](_ => 0);
    outDegree := new nat[n](_ => 0);
    for i := 0 to |lines|
      invariant DegreesMatch(inDegree, outDegree, Arcs(lines[..i], directed), n)
    {
      assert lines[i] in lines && lines[..i + 1][..i] == lines[..i];
      var u, v := lines[i].u, lines[i].v;
      ghost var done := Arcs(lines[..i], directed);
      assert done + [Arc(u, v)] + [] == done + [Arc(u, v)];
      if directed {
        Count(u, v, inDegree, outDegree, done, n);
      } else {
        Count(v, u, inDegree, outDegree, done, n);
        Count(u, v, inDegree, outDegree, done + [Arc(v, u)], n);
        forall x: nat | x < n
          ensures outDegree[x] == OutDegree(done + [Arc(u, v)] + [Arc(v, u)], x)
          ensures inDegree[x] == InDegree(done + [Arc(u, v)] + [Arc(v, u)], x)
        {
          DegreesCommute(done, Arc(u, v), Arc(v, u), x);
        }
      }
    }
    assert lines[..|lines|] == lines;
  }

  /** Second pass: build the lists. */
  method BuildLists(lines: seq<Arc>, n: nat, directed: bool, weighted: bool)
    returns (inList: array<seq<int>>, outList: array<seq<int>>)
    requires InRange(lines, n)
    ensures fresh(inList) && fresh(outList) && InRange(Arcs(lines, directed), n)
    ensures ListsMatch(inList, outList, Arcs(lines, directed), n, weighted)
  {
    inList := new seq<int>[n](_ => []);
    outList := new seq<int>[n](_ => []);
    ghost var done: seq<Arc> := [];
    for i := 0 to |lines|
      invariant done == Arcs(lines[..i], directed) && InRange(done, n)
      invariant ListsMatch(inList, outList, done, n, weighted)
    {
      assert lines[i] in lines && lines[..i + 1][..i] == lines[..i];
      var u, v := lines[i].u, lines[i].v;
      AddEdge(u, v, inList, outList, weighted, done, n);
      done := done + [Arc(u, v)];
      assert done + [] == done;
      if !directed {
        AddEdge(v, u, inList, outList, weighted, done, n);
        done := done + [Arc(v, u)];
      }
    }
    assert lines[..|lines|] == lines;
  }

  // ---- Offsets and files ----

  ghost function Prefix(degree: seq<nat>, i: nat): nat
    requires i <= |degree|
  {
    if i == 0 then 0 else Prefix(degree, i - 1) + degree[i - 1]
  }

  method WriteOffsets(degree: array<nat>) returns (offset: seq<nat>)
    ensures |offset| == degree.Length + 1
    ensures forall i :: 0 <= i <= degree.Length ==> offset[i] == Prefix(degree[..], i)
  {
    offset := [0];
    for i := 0 to degree.Length
      invariant |offset| == i + 1
      invariant forall j :: 0 <= j <= i ==> offset[j] == Prefix(degree[..], j)
    {
      offset := offset + [offset[i] + degree[i]];
    }
  }

  method WriteEdges(list: array<seq<int>>) returns (file: seq<int>)
    ensures file == Flatten(list[..])
  {
    file := [];
    for i := 0 to list.Length
      invariant file == Flatten(list[..i])
    {
      assert list[..i + 1][..i] == list[..i];
      if |list[i]| > 0 {
        file := file + list[i];
      } else {
        assert file + list[i] == file;
      }
    }
    assert list[..list.Length] == list[..];
  }

  /** The four files a graph is prepared into. */
  datatype Files = Files(inOffset: seq<nat>, outOffset: seq<nat>, inEdge: seq<int>, outEdge: seq<int>)

  ghost function Lists(arcs: seq<Arc>, n: nat, weighted: bool, out: bool): (s: seq<seq<int>>)
    requires InRange(arcs, n)
    ensures |s| == n
  {
    seq(n, u requires 0 <= u < n => if out then OutWords(arcs, n, weighted, u) else InWords(arcs, n, weighted, u))
  }

  /** Offset `i`, in edges, points at list `i` of the edge file. */
  ghost predicate Indexes(offset: seq<nat>, file: seq<int>, lists: seq<seq<int>>, weighted: bool) {
    && |offset| == |lists| + 1
    && file == Flatten(lists)
    && forall i :: 0 <= i <= |lists| ==> offset[i] * Stride(weighted) == |Flatten(lists[..i])|
  }

  ghost predicate Prepared(f: Files, arcs: seq<Arc>, n: nat, weighted: bool)
    requires InRange(arcs, n)
  {
    && Indexes(f.outOffset, f.outEdge, Lists(arcs, n, weighted, true), weighted)
    && Indexes(f.inOffset, f.inEdge, Lists(arcs, n, weighted, false), weighted)
  }

  lemma {:induction false} OffsetsIndex(degree: seq<nat>, lists: seq<seq<int>>, weighted: bool, i: nat)
    requires |degree| == |lists| && i <= |lists|
    requires forall u :: 0 <= u < |lists| ==> |lists[u]| == Stride(weighted) * degree[u]
    ensures Prefix(degree, i) * Stride(weighted) == |Flatten(lists[..i])|
  {
    if i > 0 {
      OffsetsIndex(degree, lists, weighted, i - 1);
      assert lists[..i][..i - 1] == lists[..i - 1];
    }
  }

  /** The whole preparation: whatever the edge list, the files index the plain adjacency lists. */
  method Prepare(lines: seq<Arc>, n: nat, directed: bool, weighted: bool) returns (f: Files)
    requires InRange(lines, n)
    ensures InRange(Arcs(lines, directed), n) && Prepared(f, Arcs(lines, directed), n, weighted)
  {
    var inDegree, outDegree := CountDegrees(lines, n, directed);
    var inList, outList := BuildLists(lines, n, directed, weighted);
    ghost var arcs := Arcs(lines, directed);
    var inOffset := WriteOffsets(inDegree);
    var outOffset := WriteOffsets(outDegree);
    var inEdge := WriteEdges(inList);
    var outEdge := WriteEdges(outList);
    f := Files(inOffset, outOffset, inEdge, outEdge);
    forall u: nat | u < n
      ensures |Lists(arcs, n, weighted, true)[u]| == Stride(weighted) * outDegree[u]
      ensures |Lists(arcs, n, weighted, false)[u]| == Stride(weighted) * inDegree[u]
    {
      WordsPerEdge(arcs, n, weighted, u);
    }
    assert outList[..] == Lists(arcs, n, weighted, true) && inList[..] == Lists(arcs, n, weighted, false);
    forall i: nat | i <= n
      ensures outOffset[i] * Stride(weighted) == |Flatten(Lists(arcs, n, weighted, true)[..i])|
      ensures inOffset[i] * Stride(weighted) == |Flatten(Lists(arcs, n, weighted, false)[..i])|
    {
      OffsetsIndex(outDegree[..], Lists(arcs, n, weighted, true), weighted, i);
      OffsetsIndex(inDegree[..], Lists(arcs, n, weighted, false), weighted, i);
    }
  }
}
