/** The active set on its way round: a partition scans the broadcast bitmap for its own vertices, and the
    coordinator ORs the partitions' replies into the next one. */
module ActiveSets {
  import opened Partitions
  import opened Bitmaps

  lemma {:induction false} Ascending(from: nat, count: nat, active: set<nat>)
    ensures forall i, j :: 0 <= i < j < |ActiveList(from, count, active)| ==>
      ActiveList(from, count, active)[i] < ActiveList(from, count, active)[j]
  {
    if count > 0 {
      Ascending(from, count - 1, active);
      var front := ActiveList(from, count - 1, active);
      assert forall i :: 0 <= i < |front| ==> front[i] in front;
    }
  }

  /** `gas`: the partition's worklist, read off the bitmap bit by bit. */
  method ScanActive(active: Bitmap, start: nat, size: nat) returns (list: seq<nat>)
    requires active.Valid() && (size > 0 ==> start + size <= 32 * active.words.Length)
    ensures list == ActiveList(start, size, active.Contents())
    ensures forall v: nat :: v in list <==> v in active.Contents() && start <= v < start + size
    ensures forall i, j :: 0 <= i < j < |list| ==> list[i] < list[j]
  {
    list := [];
    for i: nat := 0 to size
      invariant list == ActiveList(start, i, active.Contents())
    {
      var b := active.Get(start + i);
      if b { list := list + [start + i]; }
    }
    Ascending(start, size, active.Contents());
  }

  ghost function Union(replies: seq<Bitmap>): (s: set<nat>)
    reads set r | r in replies :: r.words
  {
    if replies == [] then {} else Union(replies[..|replies| - 1]) + replies[|replies| - 1].Contents()
  }

  /** `dispatchRequest`: the OR of the replies is their union. */
  method MergeReplies(totalNode: nat, replies: seq<Bitmap>) returns (next: Bitmap)
    requires forall r :: r in replies ==> r.Valid() && r.words.Length == totalNode / 32 + 1
    ensures fresh(next) && fresh(next.words) && next.Valid() && next.words.Length == totalNode / 32 + 1
    ensures next.Contents() == Union(replies)
  {
    next := new Bitmap(totalNode);
    for i := 0 to |replies|
      invariant fresh(next) && fresh(next.words) && next.Valid() && next.words.Length == totalNode / 32 + 1
      invariant forall r :: r in replies ==> r.Valid() && r.words != next.words
      invariant next.Contents() == Union(replies[..i])
    {
      assert replies[i] in replies && replies[..i + 1][..i] == replies[..i];
      next.OrWith(replies[i]);
    }
    assert replies[..|replies|] == replies;
  }

  lemma {:induction false} ListedOnce(from: nat, count: nat, active: set<nat>, v: nat)
    ensures multiset(ActiveList(from, count, active))[v] == if v in active && from <= v < from + count then 1 else 0
  {
    if count > 0 { ListedOnce(from, count - 1, active, v); }
  }

  /** Every active vertex is in exactly one partition's worklist, once. */
  lemma OneWorklist(parts: Parts, n: nat, active: set<nat>, v: nat) returns (p: nat)
    requires Covers(parts, n) && v in active && v < n
    ensures p < |parts.start| && v in ActiveList(parts.start[p], parts.size[p], active)
    ensures forall q: nat :: q < |parts.start| && v in ActiveList(parts.start[q], parts.size[q], active) ==> q == p
    ensures multiset(ActiveList(parts.start[p], parts.size[p], active))[v] == 1
  {
    assert Owned(parts, v);
    p :| Owns(parts, p, v);
    ListedOnce(parts.start[p], parts.size[p], active, v);
    forall q: nat | q < |parts.start| && v in ActiveList(parts.start[q], parts.size[q], active)
      ensures q == p
    {
      assert Owns(parts, q, v);
    }
  }
}
