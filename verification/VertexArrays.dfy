/** How a vertex id picks its cell in a vertex array: the byte offset is computed in uint32. */
module VertexArrays {

  const MAX_NODES: nat := 0x4000_0000

  function Offset(v: nat): nat { 4 * v % 0x1_0000_0000 }

  ghost predicate OwnCells(n: nat) {
    forall u: nat, v: nat :: u < n && v < n && Offset(u) == Offset(v) ==> u == v
  }

  /** Every vertex has a cell of its own exactly when there are at most `2^30` of them. */
  lemma CellsAreOwn(n: nat)
    ensures OwnCells(n) <==> n <= MAX_NODES
  {
    if n > MAX_NODES {
      assert Offset(0) == Offset(MAX_NODES);
    }
  }
}
