/** Contiguous vertex partitions, as the loaded graph partitions see them: partition `p` holds the
    vertices `start[p] .. start[p] + size[p]`. */
module Partitions {

  datatype Parts = Parts(start: seq<nat>, size: seq<nat>)

  predicate Local(start: nat, size: nat, v: nat) { start <= v < start + size }

  predicate Owns(ps: Parts, p: nat, v: nat) {
    p < |ps.start| && p < |ps.size| && ps.start[p] <= v < ps.start[p] + ps.size[p]
  }

  ghost predicate Owned(ps: Parts, v: nat) {
    exists p: nat :: Owns(ps, p, v)
  }

  /** Every vertex below `n` is owned by exactly one partition, and nothing else is owned. */
  ghost predicate Covers(ps: Parts, n: nat) {
    && |ps.start| == |ps.size|
    && (forall v: nat :: v < n ==> Owned(ps, v))
    && (forall p: nat, v: nat :: Owns(ps, p, v) ==> v < n)
    && (forall p: nat, q: nat, v: nat :: Owns(ps, p, v) && Owns(ps, q, v) ==> p == q)
  }

  /** The members of `active` in `[from, from + count)`, ascending: the scan that turns the active
      bitmap into a partition's worklist. */
  function ActiveList(from: nat, count: nat, active: set<nat>): (s: seq<nat>)
    ensures forall v: nat :: v in s <==> v in active && from <= v < from + count
  {
    if count == 0 then []
    else ActiveList(from, count - 1, active) +
         (if from + count - 1 in active then [from + count - 1] else [])
  }
}
