/** Degree-balanced contiguous partitioning, and the partition table derived from it. */
module Splitting {
  import opened Csr
  import opened Partitions
  import opened Sums

  /** The load of the vertices `i .. j`. */
  ghost function LoadOf(degree: seq<nat>, i: nat, j: nat): int
    requires i <= |degree| && j <= |degree|
  {
    Prefix(degree, j) - Prefix(degree, i)
  }

  /** The segment `a .. b` stays within the limit until its last vertex, and passes it with that vertex
      unless it ends the graph. */
  ghost predicate Segment(degree: seq<nat>, limit: nat, a: nat, b: nat) {
    && a < b <= |degree|
    && LoadOf(degree, a, b - 1) <= limit
    && (b < |degree| ==> LoadOf(degree, a, b) > limit)
  }

  /** Consecutive segments starting at vertex 0. */
  ghost predicate Segments(bounds: seq<nat>, degree: seq<nat>, limit: nat) {
    && |bounds| > 0 && bounds[0] == 0
    && forall i :: 0 < i < |bounds| ==> Segment(degree, limit, bounds[i - 1], bounds[i])
  }

  lemma {:induction false} PrefixMonotone(degree: seq<nat>, i: nat, j: nat)
    requires i <= j <= |degree|
    ensures Prefix(degree, i) <= Prefix(degree, j)
  {
    if i < j { PrefixMonotone(degree, i, j - 1); }
  }

  /** `m` full segments carry at least `m * (limit + 1)`. */
  lemma {:induction false} FullSegmentsWeigh(bounds: seq<nat>, degree: seq<nat>, limit: nat, m: nat)
    requires Segments(bounds, degree, limit) && m < |bounds| && bounds[m] < |degree|
    ensures m * (limit + 1) <= Prefix(degree, bounds[m])
  {
    if m > 0 {
      assert Segment(degree, limit, bounds[m - 1], bounds[m]);
      FullSegmentsWeigh(bounds, degree, limit, m - 1);
      assert m * (limit + 1) == (m - 1) * (limit + 1) + (limit + 1);
    }
  }

  /** The load at which a segment is cut. */
  function Limit(total: nat, parts: nat): nat
    requires parts > 0
  {
    total / parts
  }

  /** Fewer than `parts` segments can be full when `parts` of them would outweigh the total. */
  lemma HeavySegmentsAreFew(bounds: seq<nat>, degree: seq<nat>, total: nat, parts: nat, limit: nat)
    requires Segments(bounds, degree, limit) && bounds[|bounds| - 1] < |degree|
    requires Prefix(degree, |degree|) == total < parts * (limit + 1)
    ensures |bounds| - 1 < parts
  {
    var m: nat := |bounds| - 1;
    FullSegmentsWeigh(bounds, degree, limit, m);
    PrefixMonotone(degree, bounds[m], |degree|);
    if m >= parts { MulMonotone(parts, m, limit + 1); }
  }

  /** Segments that all pass the limit would outweigh the total if there were `parts` of them. */
  lemma LimitOutweighs(total: nat, parts: nat)
    requires parts > 0
    ensures total < parts * (Limit(total, parts) + 1)
  {
    var limit := Limit(total, parts);
    assert total == parts * limit + total % parts;
    assert parts * (limit + 1) == parts * limit + parts;
  }

  /** Fewer than `parts` segments can pass the limit. */
  lemma FullSegmentsAreFew(bounds: seq<nat>, degree: seq<nat>, total: nat, parts: nat)
    requires parts > 0 && Segments(bounds, degree, Limit(total, parts)) && bounds[|bounds| - 1] < |degree|
    requires Prefix(degree, |degree|) == total
    ensures |bounds| - 1 < parts
  {
    LimitOutweighs(total, parts);
    HeavySegmentsAreFew(bounds, degree, total, parts, Limit(total, parts));
  }

  /** `parts` times the load of the vertices from `a` to `b`, the last one left out, is at most the total; and more
      than the total with the last one, unless they end the graph. */
  ghost predicate FairShare(degree: seq<nat>, total: nat, parts: nat, a: nat, b: nat) {
    && a < b <= |degree|
    && parts * LoadOf(degree, a, b - 1) <= total
    && (b < |degree| ==> parts * LoadOf(degree, a, b) > total)
  }

  ghost predicate Balanced(bounds: seq<nat>, degree: seq<nat>, total: nat, parts: nat) {
    forall i :: 0 < i < |bounds| ==> FairShare(degree, total, parts, bounds[i - 1], bounds[i])
  }

  lemma WithinShare(load: nat, total: nat, parts: nat)
    requires parts > 0 && load <= Limit(total, parts)
    ensures parts * load <= total
  {
    MulMonotone(load, Limit(total, parts), parts);
    assert total == parts * Limit(total, parts) + total % parts;
  }

  lemma BeyondShare(load: nat, total: nat, parts: nat)
    requires parts > 0 && load > Limit(total, parts)
    ensures parts * load > total
  {
    LimitOutweighs(total, parts);
    MulMonotone(Limit(total, parts) + 1, load, parts);
  }

  /** Cutting at the limit balances the segments. */
  lemma SegmentsBalance(bounds: seq<nat>, degree: seq<nat>, total: nat, parts: nat)
    requires parts > 0 && Segments(bounds, degree, Limit(total, parts))
    ensures Balanced(bounds, degree, total, parts)
  {
    forall i | 0 < i < |bounds|
      ensures FairShare(degree, total, parts, bounds[i - 1], bounds[i])
    {
      assert Segment(degree, Limit(total, parts), bounds[i - 1], bounds[i]);
      PrefixMonotone(degree, bounds[i - 1], bounds[i] - 1);
      WithinShare(LoadOf(degree, bounds[i - 1], bounds[i] - 1), total, parts);
      if bounds[i] < |degree| { BeyondShare(LoadOf(degree, bounds[i - 1], bounds[i]), total, parts); }
    }
  }

  ghost function Degrees(i: seq<nat>, o: seq<nat>): (d: seq<nat>)
    requires |i| == |o|
    ensures |d| == |i|
  {
    seq(|i|, k requires 0 <= k < |i| => i[k] + o[k])
  }

  /** The inner loop: advance until the running load passes the limit or the vertices run out. */
  method NextBound(inDegree: array<nat>, outDegree: array<nat>, from: nat, limit: nat) returns (start: nat)
    requires inDegree.Length == outDegree.Length && from < inDegree.Length
    ensures Segment(Degrees(inDegree[..], outDegree[..]), limit, from, start)
  {
    ghost var degree := Degrees(inDegree[..], outDegree[..]);
    start := from;
    var cur := 0;
    while start < inDegree.Length
      invariant from <= start <= inDegree.Length
      invariant cur == LoadOf(degree, from, start) <= limit
    {
      cur := cur + inDegree[start] + outDegree[start];
      assert degree[start] == inDegree[start] + outDegree[start];
      if cur > limit {
        start := start + 1;
        return;
      }
      start := start + 1;
    }
    PrefixMonotone(degree, start - 1, start);
  }

  lemma {:induction false} SegmentsAreSorted(bounds: seq<nat>, degree: seq<nat>, limit: nat, i: nat, j: nat)
    requires Segments(bounds, degree, limit) && i <= j < |bounds|
    ensures bounds[i] <= bounds[j] && (i < j ==> bounds[i] < bounds[j])
  {
    if i < j {
      assert Segment(degree, limit, bounds[j - 1], bounds[j]);
      SegmentsAreSorted(bounds, degree, limit, i, j - 1);
    }
  }

  lemma BoundsIncrease(bounds: seq<nat>, degree: seq<nat>, limit: nat)
    requires Segments(bounds, degree, limit)
    ensures forall i, j :: 0 <= i < j < |bounds| ==> bounds[i] < bounds[j]
  {
    forall i, j | 0 <= i < j < |bounds|
      ensures bounds[i] < bounds[j]
    {
      SegmentsAreSorted(bounds, degree, limit, i, j);
    }
  }

  /** `split`: strictly increasing bounds that cover the vertices with at most `partition` segments. A segment carries
      at most one `partition`-th of the total without its last vertex, and more than that with it unless it ends the
      graph. */
  method Split(inDegree: array<nat>, outDegree: array<nat>, totalEdge: nat, partition: nat) returns (startNodes: seq<nat>)
    requires partition >= 1 && inDegree.Length == outDegree.Length
    requires Prefix(Degrees(inDegree[..], outDegree[..]), inDegree.Length) == 2 * totalEdge
    ensures startNodes != [] && startNodes[0] == 0
    ensures Balanced(startNodes, Degrees(inDegree[..], outDegree[..]), 2 * totalEdge, partition)
    ensures forall i, j :: 0 <= i < j < |startNodes| ==> startNodes[i] < startNodes[j]
    ensures startNodes[|startNodes| - 1] == inDegree.Length
    ensures |startNodes| - 1 <= partition
    ensures inDegree.Length > 0 ==> |startNodes| >= 2
  {
    ghost var degree := Degrees(inDegree[..], outDegree[..]);
    var totalNode := inDegree.Length;
    var limit := Limit(totalEdge * 2, partition);
    startNodes := [];
    var start := 0;
    while start < totalNode
      invariant start <= totalNode && Segments(startNodes + [start], degree, limit)
      invariant |startNodes| <= partition && (start > 0 ==> |startNodes| > 0)
    {
      FullSegmentsAreFew(startNodes + [start], degree, 2 * totalEdge, partition);
      startNodes := startNodes + [start];
      start := NextBound(inDegree, outDegree, start, limit);
    }
    startNodes := startNodes + [totalNode];
    BoundsIncrease(startNodes, degree, limit);
    SegmentsBalance(startNodes, degree, 2 * totalEdge, partition);
  }

  lemma {:induction false} PrefixZero(d: seq<nat>, k: nat)
    requires k <= |d| && forall x :: 0 <= x < |d| ==> d[x] == 0
    ensures Prefix(d, k) == 0
  {
    if k > 0 { PrefixZero(d, k - 1); }
  }

  lemma {:induction false} PrefixBump(d: seq<nat>, e: seq<nat>, x: nat, k: nat)
    requires x < |d| && e == d[x := d[x] + 1] && k <= |d|
    ensures Prefix(e, k) == Prefix(d, k) + (if x < k then 1 else 0)
  {
    if k > 0 { PrefixBump(d, e, x, k - 1); }
  }

  /** The degrees of an edge list sum to twice its edges, as the limit assumes. */
  lemma {:induction false} DegreesSum(arcs: seq<Arc>, n: nat, i: seq<nat>, o: seq<nat>)
    requires |i| == |o| == n && (forall a :: a in arcs ==> a.u < n && a.v < n)
    requires forall x: nat :: x < n ==> i[x] == InDegree(arcs, x) && o[x] == OutDegree(arcs, x)
    ensures Prefix(Degrees(i, o), n) == 2 * |arcs|
  {
    if arcs == [] {
      PrefixZero(Degrees(i, o), n);
    } else {
      var front, a := arcs[..|arcs| - 1], arcs[|arcs| - 1];
      assert a in arcs;
      var o': seq<nat> := seq(n, x requires 0 <= x => OutDegree(front, x));
      var i': seq<nat> := seq(n, x requires 0 <= x => InDegree(front, x));
      DegreesSum(front, n, i', o');
      var mid := Degrees(i', o');
      PrefixBump(mid, mid[a.u := mid[a.u] + 1], a.u, n);
      var mid2: seq<nat> := mid[a.u := mid[a.u] + 1];
      PrefixBump(mid2, mid2[a.v := mid2[a.v] + 1], a.v, n);
      assert Degrees(i, o) == mid2[a.v := mid2[a.v] + 1];
    }
  }

  // ---- The partition table ----

  /** Entry `i` of the start-node file; reading past the end leaves the buffer at the last entry. */
  function Entry(file: seq<nat>, i: nat): nat
    requires |file| > 0
  {
    if i < |file| then file[i] else file[|file| - 1]
  }

  ghost predicate Sorted(s: seq<nat>) {
    forall i, j :: 0 <= i <= j < |s| ==> s[i] <= s[j]
  }

  /** The bounds between partitions: their start nodes, then the number of vertices. */
  ghost function Bounds(startNodes: seq<nat>, totalNode: nat): seq<nat> { startNodes + [totalNode] }

  method SizesOf(startNodes: seq<nat>, totalNode: nat) returns (sizes: map<nat, nat>)
    requires Sorted(Bounds(startNodes, totalNode))
    requires forall i, j :: 0 <= i < j < |startNodes| && startNodes[i] == startNodes[j] ==> startNodes[j] == totalNode
    ensures forall i :: 0 <= i < |startNodes| ==> startNodes[i] in sizes
    ensures forall i :: 0 <= i < |startNodes| ==> startNodes[i] + sizes[startNodes[i]] == Bounds(startNodes, totalNode)[i + 1]
  {
    sizes := map[];
    ghost var bounds := Bounds(startNodes, totalNode);
    for i := 0 to |startNodes|
      invariant forall j :: 0 <= j < i ==> startNodes[j] in sizes
      invariant forall j :: 0 <= j < i ==> startNodes[j] + sizes[startNodes[j]] == bounds[j + 1]
    {
      assert bounds[i] <= bounds[i + 1];
      var size := if i == |startNodes| - 1 then totalNode - startNodes[i] else startNodes[i + 1] - startNodes[i];
      forall j | 0 <= j < i && startNodes[j] == startNodes[i]
        ensures bounds[j + 1] == startNodes[j] == totalNode == bounds[i + 1]
      {
        assert bounds[j] <= bounds[j + 1] <= bounds[|startNodes|] && bounds[i] <= bounds[i + 1] <= bounds[|startNodes|];
      }
      sizes := sizes[startNodes[i] := size];
    }
  }

  /** `LoadGraphConfig`: the first `partition` start nodes and, by start node, the sizes. */
  method LoadGraphConfig(file: seq<nat>, partition: nat, totalNode: nat) returns (startNodes: seq<nat>, sizes: map<nat, nat>)
    requires partition >= 1 && |file| > 0 && Sorted(file) && file[|file| - 1] == totalNode
    requires forall i, j :: 0 <= i < j < |file| ==> file[i] < file[j]
    ensures |startNodes| == partition && Sorted(Bounds(startNodes, totalNode)) && startNodes[0] == file[0]
    ensures forall i :: 0 <= i < partition ==> startNodes[i] == Entry(file, i)
    ensures forall i :: 0 <= i < partition ==> startNodes[i] in sizes
    ensures forall i :: 0 <= i < partition ==> startNodes[i] + sizes[startNodes[i]] == Bounds(startNodes, totalNode)[i + 1]
  {
    startNodes := [];
    for i := 0 to partition
      invariant |startNodes| == i
      invariant forall j :: 0 <= j < i ==> startNodes[j] == Entry(file, j)
    {
      startNodes := startNodes + [Entry(file, i)];
    }
    sizes := SizesOf(startNodes, totalNode);
  }

  lemma {:induction false} SegmentOf(bounds: seq<nat>, v: nat) returns (p: nat)
    requires |bounds| > 0 && bounds[0] <= v < bounds[|bounds| - 1]
    ensures p < |bounds| - 1 && bounds[p] <= v < bounds[p + 1]
  {
    if v >= bounds[|bounds| - 2] {
      p := |bounds| - 2;
    } else {
      p := SegmentOf(bounds[..|bounds| - 1], v);
    }
  }

  /** Contiguous partitions cut by sorted bounds from 0 to `n` give every vertex exactly one owner. */
  lemma TableCovers(startNodes: seq<nat>, n: nat, parts: Parts)
    requires |startNodes| > 0 && startNodes[0] == 0 && Sorted(Bounds(startNodes, n))
    requires parts.start == startNodes && |parts.size| == |startNodes|
    requires forall i :: 0 <= i < |startNodes| ==> startNodes[i] + parts.size[i] == Bounds(startNodes, n)[i + 1]
    ensures Covers(parts, n)
  {
    var bounds := Bounds(startNodes, n);
    forall p: nat, v: nat
      ensures Owns(parts, p, v) <==> p < |startNodes| && bounds[p] <= v < bounds[p + 1]
    {
    }
    forall v: nat | v < n
      ensures Owned(parts, v)
    {
      var p := SegmentOf(bounds, v);
      assert Owns(parts, p, v);
    }
    forall p: nat, v: nat | Owns(parts, p, v)
      ensures v < n
    {
      assert bounds[p + 1] <= bounds[|startNodes|];
    }
    forall p: nat, q: nat, v: nat | Owns(parts, p, v) && Owns(parts, q, v)
      ensures p == q
    {
    }
  }
}
