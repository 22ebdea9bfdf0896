/** Loading one partition's segment of the prepared files, and reading adjacency back from it. */
module Loading {
  import opened Sequences
  import opened Csr

  /** The value a 64-bit integer has after conversion to int32. */
  function ToI32(x: int): int {
    var r := x % 0x1_0000_0000;
    if r < 0x8000_0000 then r else r - 0x1_0000_0000
  }

  /** Words `from .. from + count` of a file. */
  function Segment<T>(file: seq<T>, from: nat, count: nat): (s: seq<T>)
    requires from + count <= |file|
    ensures |s| == count
  {
    file[from..from + count]
  }

  /** Global edge offsets to local word offsets. */
  method LocalOffsets(segment: seq<nat>, stride: nat) returns (local: seq<int>)
    requires |segment| > 0
    ensures |local| == |segment|
    ensures forall i :: 0 <= i < |segment| ==> local[i] == ToI32((segment[i] - segment[0]) * stride)
  {
    local := [];
    for i := 0 to |segment|
      invariant |local| == i
      invariant forall j :: 0 <= j < i ==> local[j] == ToI32((segment[j] - segment[0]) * stride)
    {
      local := local + [ToI32((segment[i] - segment[0]) * stride)];
    }
  }

  /** Local offsets of the lists `from .. to`, in words. */
  ghost predicate Offsets(local: seq<int>, lists: seq<seq<int>>, from: nat, to: nat) {
    && from <= to <= |lists| && |local| == to - from + 1
    && forall i :: 0 <= i <= to - from ==> local[i] == |Flatten(lists[..from + i])| - |Flatten(lists[..from])|
  }

  /** The words of the lists `from .. to`. */
  ghost predicate Holds(csr: seq<int>, lists: seq<seq<int>>, from: nat, to: nat) {
    && from <= to <= |lists|
    && |Flatten(lists[..from])| <= |Flatten(lists[..to])| <= |Flatten(lists)|
    && csr == Flatten(lists)[|Flatten(lists[..from])|..|Flatten(lists[..to])|]
  }

  /** The words of a segment fit an int32 offset. */
  ghost predicate FitsI32(lists: seq<seq<int>>, from: nat, to: nat)
    requires from <= to <= |lists|
  {
    |Flatten(lists[..to])| - |Flatten(lists[..from])| < 0x8000_0000
  }

  lemma SliceOfSlice<T>(s: seq<T>, a: nat, b: nat, c: nat, z: nat)
    requires a <= b <= c <= z <= |s|
    ensures s[a..z][b - a..c - a] == s[b..c]
  {
    forall i | 0 <= i < c - b
      ensures s[a..z][b - a..c - a][i] == s[b..c][i]
    {
      assert s[a..z][(b - a) + i] == s[a + ((b - a) + i)];
    }
  }

  /** List `from + i` within the segment of lists `from .. to`. */
  lemma SegmentSlice(lists: seq<seq<int>>, from: nat, to: nat, i: nat)
    requires from + i < to <= |lists|
    ensures var a, b, z := |Flatten(lists[..from])|, |Flatten(lists[..from + i])|, |Flatten(lists[..to])|;
      && a <= b <= b + |lists[from + i]| <= z <= |Flatten(lists)|
      && |Flatten(lists[..from + i + 1])| == b + |lists[from + i]|
      && Flatten(lists)[a..z][b - a..b + |lists[from + i]| - a] == lists[from + i]
  {
    FlattenPrefix(lists, from, from + i);
    FlattenPrefix(lists, from + i + 1, to);
    FlattenSlice(lists, from + i);
    var a, b, z := |Flatten(lists[..from])|, |Flatten(lists[..from + i])|, |Flatten(lists[..to])|;
    SliceOfSlice(Flatten(lists), a, b, b + |lists[from + i]|, z);
  }

  /** Reading back: the slice between two local offsets is one list. */
  lemma SliceIsList(csr: seq<int>, local: seq<int>, lists: seq<seq<int>>, from: nat, to: nat, u: nat)
    requires Offsets(local, lists, from, to) && Holds(csr, lists, from, to) && from <= u < to
    ensures 0 <= local[u - from] <= local[u - from + 1] <= |csr|
    ensures csr[local[u - from]..local[u - from + 1]] == lists[u]
  {
    SegmentSlice(lists, from, to, u - from);
    assert local[u - from] == |Flatten(lists[..from + (u - from)])| - |Flatten(lists[..from])|;
    assert local[u - from + 1] == |Flatten(lists[..from + (u - from + 1)])| - |Flatten(lists[..from])|;
  }

  lemma OffsetGap(local: seq<int>, lists: seq<seq<int>>, from: nat, to: nat, u: nat)
    requires Offsets(local, lists, from, to) && from <= u < to
    ensures local[u - from + 1] - local[u - from] == |lists[u]|
  {
    SegmentSlice(lists, from, to, u - from);
    assert local[u - from] == |Flatten(lists[..from + (u - from)])| - |Flatten(lists[..from])|;
    assert local[u - from + 1] == |Flatten(lists[..from + (u - from + 1)])| - |Flatten(lists[..from])|;
  }

  lemma LocalOffset(offset: seq<nat>, file: seq<int>, lists: seq<seq<int>>, weighted: bool, from: nat, to: nat, i: nat)
    requires Indexes(offset, file, lists, weighted) && from + i <= to <= |lists| && FitsI32(lists, from, to)
    ensures ToI32((offset[from + i] - offset[from]) * Stride(weighted))
      == |Flatten(lists[..from + i])| - |Flatten(lists[..from])|
  {
    FlattenPrefix(lists, from, from + i);
    FlattenPrefix(lists, from + i, to);
    assert offset[from + i] * Stride(weighted) == |Flatten(lists[..from + i])|;
    assert offset[from] * Stride(weighted) == |Flatten(lists[..from])|;
  }

  /** One direction of a partition: its local offsets and, if asked for, its words. */
  method LoadDirection(offset: seq<nat>, file: seq<int>, from: nat, to: nat, weighted: bool, wanted: bool,
                       ghost lists: seq<seq<int>>)
    returns (local: seq<int>, csr: seq<int>)
    requires Indexes(offset, file, lists, weighted) && from <= to <= |lists| && FitsI32(lists, from, to)
    ensures Offsets(local, lists, from, to) && (wanted ==> Holds(csr, lists, from, to))
  {
    var segment := Segment(offset, from, to - from + 1);
    FlattenPrefix(lists, from, to);
    csr := [];
    if wanted {
      csr := file[segment[0] * Stride(weighted)..segment[|segment| - 1] * Stride(weighted)];
    }
    local := LocalOffsets(segment, Stride(weighted));
    forall i | 0 <= i <= to - from
      ensures local[i] == |Flatten(lists[..from + i])| - |Flatten(lists[..from])|
    {
      LocalOffset(offset, file, lists, weighted, from, to, i);
    }
  }

  /** Where a start node first occurs in the start-node file. */
  function FirstIndex(s: seq<nat>, x: nat): (i: nat)
    requires x in s
    ensures i < |s| && s[i] == x && x !in s[..i]
  {
    if s[0] == x then 0
    else
      var i := 1 + FirstIndex(s[1..], x);
      assert s[..i] == [s[0]] + s[1..][..i - 1];
      i
  }

  /** The first vertex after the partition that starts at `x`. */
  function NextStart(startNodes: seq<nat>, totalNode: nat, x: nat): nat
    requires x in startNodes
  {
    (startNodes + [totalNode])[FirstIndex(startNodes, x) + 1]
  }

  /** One loaded partition. */
  class GraphPartition {
    const startNode: nat
    const totalNode: nat
    const weighted: bool
    var inCSR: seq<int>
    var inOffset: seq<int>
    var outCSR: seq<int>
    var outOffset: seq<int>

    constructor (startNode: nat, totalNode: nat, weighted: bool)
      ensures this.startNode == startNode && this.totalNode == totalNode && this.weighted == weighted
    {
      this.startNode, this.totalNode, this.weighted := startNode, totalNode, weighted;
      inCSR, inOffset, outCSR, outOffset := [], [], [], [];
    }

    ghost function Next(startNodes: seq<nat>): nat
      requires startNode in startNodes
    {
      NextStart(startNodes, totalNode, startNode)
    }

    ghost function OutLists(arcs: seq<Arc>): seq<seq<int>>
      requires InRange(arcs, totalNode)
    {
      Lists(arcs, totalNode, weighted, true)
    }

    ghost function InLists(arcs: seq<Arc>): seq<seq<int>>
      requires InRange(arcs, totalNode)
    {
      Lists(arcs, totalNode, weighted, false)
    }

    /** The partition answers for the vertices `startNode .. next` of the graph `arcs`. */
    ghost predicate Loaded(arcs: seq<Arc>, next: nat, inEdge: bool, outEdge: bool)
      reads this
    {
      && InRange(arcs, totalNode)
      && Offsets(inOffset, InLists(arcs), startNode, next)
      && Offsets(outOffset, OutLists(arcs), startNode, next)
      && (inEdge ==> Holds(inCSR, InLists(arcs), startNode, next))
      && (outEdge ==> Holds(outCSR, OutLists(arcs), startNode, next))
    }

    /** Read the partition's offsets, and the edge segments asked for. */
    method LoadGraph(f: Files, startNodes: seq<nat>, inEdge: bool, outEdge: bool, ghost arcs: seq<Arc>)
      requires InRange(arcs, totalNode) && Prepared(f, arcs, totalNode, weighted)
      requires startNode in startNodes && startNode <= Next(startNodes) <= totalNode
      requires FitsI32(OutLists(arcs), startNode, Next(startNodes)) && FitsI32(InLists(arcs), startNode, Next(startNodes))
      modifies this
      ensures Loaded(arcs, Next(startNodes), inEdge, outEdge)
    {
      var next := FindNext(startNodes);
      inOffset, inCSR := LoadDirection(f.inOffset, f.inEdge, startNode, next, weighted, inEdge, InLists(arcs));
      outOffset, outCSR := LoadDirection(f.outOffset, f.outEdge, startNode, next, weighted, outEdge, OutLists(arcs));
    }

    /** The search through the start-node file, to which the number of vertices is appended first. */
    method FindNext(startNodes: seq<nat>) returns (next: nat)
      requires startNode in startNodes
      ensures next == Next(startNodes)
    {
      var list := startNodes + [totalNode];
      var i := 0;
      while list[i] != startNode
        invariant i < |startNodes| && startNode in startNodes[i..]
        invariant FirstIndex(startNodes, startNode) == i + FirstIndex(startNodes[i..], startNode)
        decreases |list| - i
      {
        assert startNodes[i..][1..] == startNodes[i + 1..] && startNodes[i..][0] != startNode;
        i := i + 1;
      }
      next := list[i + 1];
    }

    /** Exactly `node`'s out-neighbours, with weights when weighted, in input order. */
    method OutEdge(node: nat, ghost arcs: seq<Arc>, ghost next: nat, ghost inEdge: bool) returns (words: seq<int>)
      requires Loaded(arcs, next, inEdge, true) && startNode <= node < next
      ensures words == OutWords(arcs, totalNode, weighted, node)
    {
      SliceIsList(outCSR, outOffset, OutLists(arcs), startNode, next, node);
      words := outCSR[outOffset[node - startNode]..outOffset[node - startNode + 1]];
    }

    /** Exactly `node`'s in-neighbours, with weights when weighted, in input order. */
    method InEdge(node: nat, ghost arcs: seq<Arc>, ghost next: nat, ghost outEdge: bool) returns (words: seq<int>)
      requires Loaded(arcs, next, true, outEdge) && startNode <= node < next
      ensures words == InWords(arcs, totalNode, weighted, node)
    {
      SliceIsList(inCSR, inOffset, InLists(arcs), startNode, next, node);
      words := inCSR[inOffset[node - startNode]..inOffset[node - startNode + 1]];
    }

    method CalcOutDegree(node: nat, ghost arcs: seq<Arc>, ghost next: nat, ghost inEdge: bool, ghost outEdge: bool)
      returns (d: int)
      requires Loaded(arcs, next, inEdge, outEdge) && startNode <= node < next
      ensures d == OutDegree(arcs, node)
    {
      OffsetGap(outOffset, OutLists(arcs), startNode, next, node);
      WordsPerEdge(arcs, totalNode, weighted, node);
      d := outOffset[node - startNode + 1] - outOffset[node - startNode];
      if weighted { d := d / 2; }
    }

    method CalcInDegree(node: nat, ghost arcs: seq<Arc>, ghost next: nat, ghost inEdge: bool, ghost outEdge: bool)
      returns (d: int)
      requires Loaded(arcs, next, inEdge, outEdge) && startNode <= node < next
      ensures d == InDegree(arcs, node)
    {
      OffsetGap(inOffset, InLists(arcs), startNode, next, node);
      WordsPerEdge(arcs, totalNode, weighted, node);
      d := inOffset[node - startNode + 1] - inOffset[node - startNode];
      if weighted { d := d / 2; }
    }
  }
}
