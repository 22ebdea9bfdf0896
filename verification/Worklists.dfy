/** What scanning a worklist still costs; the part of a termination measure that every worklist algorithm
    shares. */
module Worklists {
  import opened Graphs
  import opened Sums

  ghost predicate InGraph(g: Graph, q: seq<nat>) {
    forall u :: u in q ==> u < |g.out|
  }

  /** Four units per edge and two per vertex. */
  ghost function VertexCost(g: Graph, u: nat): nat
    requires u < |g.out|
  {
    4 * |g.out[u]| + 2
  }

  ghost function VertexCosts(g: Graph, q: seq<nat>): (s: seq<nat>)
    requires InGraph(g, q)
    ensures |s| == |q|
  {
    seq(|q|, i requires 0 <= i < |q| => assert q[i] in q; VertexCost(g, q[i]))
  }

  lemma PopCost(g: Graph, q: seq<nat>)
    requires q != [] && InGraph(g, q)
    ensures q[0] in q && InGraph(g, q[1..])
    ensures Sum(VertexCosts(g, q)) == VertexCost(g, q[0]) + Sum(VertexCosts(g, q[1..]))
  {
    assert q[0] in q;
    assert forall u :: u in q[1..] ==> u in q;
    var first, rest := VertexCost(g, q[0]), VertexCosts(g, q[1..]);
    forall i | 0 <= i < |q|
      ensures VertexCosts(g, q)[i] == ([first] + rest)[i]
    {
      if i > 0 { assert q[1..][i - 1] == q[i]; }
    }
    assert VertexCosts(g, q) == [first] + rest;
    SumFirst(first, rest);
  }
}
