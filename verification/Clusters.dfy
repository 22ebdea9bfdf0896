/** The slot, CPU and port allocator shared by all resource managers. */
module Clusters {
  import opened Sequences
  import opened ClusterAccounts

  // ---- Node lists ----

  ghost function SumSlots(s: seq<Node>): int {
    if s == [] then 0 else SumSlots(s[..|s| - 1]) + s[|s| - 1].slot
  }

  ghost predicate DistinctIps(s: seq<Node>) {
    forall i, j :: 0 <= i < j < |s| ==> s[i].ip != s[j].ip
  }

  ghost predicate BySlot(s: seq<Node>) {
    forall i, j :: 0 <= i < j < |s| ==> s[i].slot >= s[j].slot
  }

  lemma {:induction false} SumSplit(a: seq<Node>, b: seq<Node>)
    ensures SumSlots(a + b) == SumSlots(a) + SumSlots(b)
  {
    if b == [] {
      assert a + b == a;
    } else {
      assert (a + b)[..|a + b| - 1] == a + b[..|b| - 1];
      SumSplit(a, b[..|b| - 1]);
    }
  }

  lemma SumInsert(a: seq<Node>, x: Node, b: seq<Node>)
    ensures SumSlots(a + [x] + b) == SumSlots(a + b) + x.slot
  {
    SumSplit(a + [x], b);
    SumSplit(a, [x]);
    SumSplit(a, b);
    assert SumSlots([x]) == SumSlots([]) + x.slot by { assert [x][..0] == []; }
  }

  lemma SumReplace(s: seq<Node>, i: nat, x: Node)
    requires i < |s|
    ensures SumSlots(s[i := x]) == SumSlots(s) - s[i].slot + x.slot
  {
    SumInsert(s[..i], s[i], s[i + 1..]);
    SumInsert(s[..i], x, s[i + 1..]);
    assert s == s[..i] + [s[i]] + s[i + 1..];
    assert s[i := x] == s[..i] + [x] + s[i + 1..];
  }

  /** If the nodes from `n` on have slots left, node `n` has: they are sorted. */
  lemma {:induction false} HeadHasSlots(s: seq<Node>, n: nat)
    requires n <= |s| && BySlot(s) && SumSlots(s) > SumSlots(s[..n])
    ensures n < |s| && s[n].slot > 0
    decreases |s|
  {
    assert s[..|s|] == s;
    if s[|s| - 1].slot <= 0 && n < |s| - 1 {
      assert s[..|s| - 1][..n] == s[..n];
      HeadHasSlots(s[..|s| - 1], n);
    }
  }

  /** `s` holds the first `i` nodes in some order. */
  ghost predicate Reordered(nodes: seq<Node>, i: nat, s: seq<Node>) {
    i <= |nodes| && multiset(s) == multiset(nodes[..i]) && SumSlots(s) == SumSlots(nodes[..i])
  }

  lemma PrefixNext(nodes: seq<Node>, i: nat)
    requires i < |nodes|
    ensures multiset(nodes[..i + 1]) == multiset(nodes[..i]) + multiset{nodes[i]}
    ensures SumSlots(nodes[..i + 1]) == SumSlots(nodes[..i]) + nodes[i].slot
  {
    assert nodes[..i + 1] == nodes[..i] + [nodes[i]] && nodes[..i + 1][..i] == nodes[..i];
    MultisetAppend(nodes[..i], nodes[i]);
  }

  lemma ReorderedNext(nodes: seq<Node>, i: nat, s: seq<Node>, t: seq<Node>)
    requires i < |nodes| && Reordered(nodes, i, s)
    requires multiset(t) == multiset(s) + multiset{nodes[i]} && SumSlots(t) == SumSlots(s) + nodes[i].slot
    ensures Reordered(nodes, i + 1, t)
  {
    PrefixNext(nodes, i);
  }

  lemma FreshIp(nodes: seq<Node>, i: nat, s: seq<Node>)
    requires DistinctIps(nodes) && i < |nodes| && multiset(s) == multiset(nodes[..i])
    ensures forall k :: 0 <= k < |s| ==> s[k].ip != nodes[i].ip
  {
    forall k | 0 <= k < |s|
      ensures s[k].ip != nodes[i].ip
    {
      assert s[k] in multiset(nodes[..i]);
    }
  }

  lemma InsertedAt(s: seq<Node>, p: nat, x: Node, i: nat)
    requires p <= |s| && i <= |s|
    ensures (s[..p] + [x] + s[p..])[i] == if i < p then s[i] else if i == p then x else s[i - 1]
  {
  }

  lemma InsertSorted(s: seq<Node>, p: nat, x: Node)
    requires BySlot(s) && p <= |s|
    requires (p > 0 ==> s[p - 1].slot >= x.slot) && forall k :: p <= k < |s| ==> s[k].slot < x.slot
    ensures BySlot(s[..p] + [x] + s[p..])
  {
    var t := s[..p] + [x] + s[p..];
    forall i, j | 0 <= i < j < |t|
      ensures t[i].slot >= t[j].slot
    {
      InsertedAt(s, p, x, i);
      InsertedAt(s, p, x, j);
    }
  }

  lemma InsertDistinct(s: seq<Node>, p: nat, x: Node)
    requires DistinctIps(s) && p <= |s| && forall k :: 0 <= k < |s| ==> s[k].ip != x.ip
    ensures DistinctIps(s[..p] + [x] + s[p..])
  {
    var t := s[..p] + [x] + s[p..];
    forall i, j | 0 <= i < j < |t|
      ensures t[i].ip != t[j].ip
    {
      InsertedAt(s, p, x, i);
      InsertedAt(s, p, x, j);
    }
  }

  lemma InsertCounts(s: seq<Node>, p: nat, x: Node)
    requires p <= |s|
    ensures multiset(s[..p] + [x] + s[p..]) == multiset(s) + multiset{x}
    ensures SumSlots(s[..p] + [x] + s[p..]) == SumSlots(s) + x.slot
  {
    assert s == s[..p] + s[p..];
    MultisetInsert(s[..p], x, s[p..]);
    SumInsert(s[..p], x, s[p..]);
  }

  method Insert(s: seq<Node>, x: Node) returns (t: seq<Node>)
    requires BySlot(s) && DistinctIps(s) && forall k :: 0 <= k < |s| ==> s[k].ip != x.ip
    ensures multiset(t) == multiset(s) + multiset{x} && BySlot(t) && DistinctIps(t)
    ensures SumSlots(t) == SumSlots(s) + x.slot
  {
    var p: nat := |s|;
    while p > 0 && s[p - 1].slot < x.slot
      invariant p <= |s| && forall k :: p <= k < |s| ==> s[k].slot < x.slot
    {
      p := p - 1;
    }
    t := s[..p] + [x] + s[p..];
    InsertSorted(s, p, x);
    InsertDistinct(s, p, x);
    InsertCounts(s, p, x);
  }

  /** `sort.Slice` by decreasing slots: some permutation of the nodes. */
  method SortBySlot(nodes: seq<Node>) returns (s: seq<Node>)
    requires DistinctIps(nodes)
    ensures multiset(s) == multiset(nodes) && BySlot(s) && DistinctIps(s) && SumSlots(s) == SumSlots(nodes)
  {
    s := [];
    for i := 0 to |nodes|
      invariant Reordered(nodes, i, s) && BySlot(s) && DistinctIps(s)
    {
      FreshIp(nodes, i, s);
      var t := Insert(s, nodes[i]);
      ReorderedNext(nodes, i, s, t);
      s := t;
    }
    assert nodes[..|nodes|] == nodes;
  }

  // ---- Batches ----

  function Batch(ip: string, ports: seq<nat>, cpus: seq<nat>): (b: seq<Container>)
    ensures |b| == |ports| && forall c :: c in b ==> c.ip == ip && c.cpuSet == cpus
  {
    seq(|ports|, i requires 0 <= i < |ports| => Container(ip, ports[i], cpus))
  }

  lemma {:induction false} BatchHolds(ip: string, ports: seq<nat>, cpus: seq<nat>)
    ensures CountAt(Batch(ip, ports, cpus), ip) == |ports|
    ensures PortsAt(Batch(ip, ports, cpus), ip) == multiset(ports)
    ensures |ports| > 0 ==> CpuListAt(Batch(ip, ports, cpus), ip) == cpus
  {
    if ports != [] {
      var last := |ports| - 1;
      BatchHolds(ip, ports[..last], cpus);
      assert Batch(ip, ports, cpus)[..last] == Batch(ip, ports[..last], cpus);
      assert ports == ports[..last] + [ports[last]];
    }
  }

  lemma {:induction false} CountAppend(cs: seq<Container>, b: seq<Container>, ip: string)
    ensures CountAt(cs + b, ip) == CountAt(cs, ip) + CountAt(b, ip)
    ensures CpuListAt(cs + b, ip) == if CountAt(b, ip) > 0 then CpuListAt(b, ip) else CpuListAt(cs, ip)
  {
    if b == [] {
      assert cs + b == cs;
    } else {
      assert (cs + b)[..|cs + b| - 1] == cs + b[..|b| - 1];
      CountAppend(cs, b[..|b| - 1], ip);
    }
  }

  lemma {:induction false} PortsAppend(cs: seq<Container>, b: seq<Container>, ip: string)
    ensures PortsAt(cs + b, ip) == PortsAt(cs, ip) + PortsAt(b, ip)
  {
    if b == [] {
      assert cs + b == cs;
    } else {
      assert (cs + b)[..|cs + b| - 1] == cs + b[..|b| - 1];
      PortsAppend(cs, b[..|b| - 1], ip);
    }
  }

  /** What the containers of `cs` on this node were cut from the node. */
  ghost predicate Drawn(nd: Node, left: Node, cs: seq<Container>, unit: nat) {
    && left.ip == nd.ip && |left.cpuMask| == |nd.cpuMask|
    && unit >= 1 && 0 <= left.slot && Whole(left.slot, unit)
    && nd.slot == left.slot + Times(CountAt(cs, nd.ip), unit)
    && multiset(nd.ports) == multiset(left.ports) + PortsAt(cs, nd.ip)
    && Free(nd.cpuMask) == Free(left.cpuMask) + multiset(CpuListAt(cs, nd.ip))
    && |CpuListAt(cs, nd.ip)| == Times(CountAt(cs, nd.ip), unit)
  }

  // ---- Taking CPUs and containers from one node ----

  lemma FreeLeft(before: seq<bool>, after: seq<bool>, cpus: seq<nat>)
    requires Free(before) == Free(after) + multiset(cpus)
    ensures |Free(after)| == |Free(before)| - |cpus|
  {
    assert |multiset(cpus)| == |cpus|;
  }

  /** One container's CPUs: the scan position moves on through the mask. */
  method TakeCpus(mask0: seq<bool>, from: nat, count: nat) returns (mask: seq<bool>, cpuP: nat, cpu: seq<nat>)
    requires |Free(mask0)| >= count && from <= |mask0| && forall i :: 0 <= i < from ==> mask0[i]
    ensures |mask| == |mask0| && |cpu| == count && cpuP <= |mask|
    ensures Free(mask0) == Free(mask) + multiset(cpu)
    ensures forall i :: 0 <= i < cpuP ==> mask[i]
  {
    mask, cpuP, cpu := mask0, from, [];
    for j := 0 to count
      invariant |mask| == |mask0| && |cpu| == j && cpuP <= |mask|
      invariant Free(mask0) == Free(mask) + multiset(cpu)
      invariant forall i :: 0 <= i < cpuP ==> mask[i]
    {
      FreeLeft(mask0, mask, cpu);
      SomeFree(mask, cpuP);
      while cpuP < |mask| && mask[cpuP]
        invariant cpuP <= |mask| && forall i :: 0 <= i < cpuP ==> mask[i]
      {
        cpuP := cpuP + 1;
      }
      MarkCpu(mask, cpuP);
      mask, cpu := mask[cpuP := true], cpu + [cpuP];
    }
  }

  lemma Regroup(a: multiset<nat>, b: multiset<nat>, c: multiset<nat>)
    ensures (a + b) + c == a + (c + b)
  {
  }

  /** Every list has `unit` CPUs. */
  ghost predicate Each(cpuArr: seq<seq<nat>>, unit: nat) {
    forall j :: 0 <= j < |cpuArr| ==> |cpuArr[j]| == unit
  }

  lemma {:induction false} EachSize(cpuArr: seq<seq<nat>>, unit: nat)
    requires Each(cpuArr, unit)
    ensures |Flatten(cpuArr)| == Times(|cpuArr|, unit)
  {
    if cpuArr != [] { EachSize(cpuArr[..|cpuArr| - 1], unit); }
  }

  lemma FlattenMore(cpuArr: seq<seq<nat>>, cpu: seq<nat>)
    ensures Flatten(cpuArr + [cpu]) == Flatten(cpuArr) + cpu
    ensures multiset(Flatten(cpuArr + [cpu])) == multiset(Flatten(cpuArr)) + multiset(cpu)
  {
    assert (cpuArr + [cpu])[..|cpuArr|] == cpuArr;
  }

  lemma EachMore(cpuArr: seq<seq<nat>>, cpu: seq<nat>, unit: nat)
    requires Each(cpuArr, unit) && |cpu| == unit
    ensures Each(cpuArr + [cpu], unit)
  {
  }

  lemma MoveFirst(ports: seq<nat>, rest: seq<nat>)
    requires rest != []
    ensures ports + rest == (ports + [rest[0]]) + rest[1..]
  {
  }

  /** Containers taken from a node so far: `mask` and `rest` are what is left of its CPUs and ports. */
  ghost predicate Taking(nd: Node, mask: seq<bool>, rest: seq<nat>, ports: seq<nat>, cpuArr: seq<seq<nat>>, unit: nat) {
    && |cpuArr| == |ports| && Each(cpuArr, unit) && nd.ports == ports + rest
    && |mask| == |nd.cpuMask| && Free(nd.cpuMask) == Free(mask) + multiset(Flatten(cpuArr))
  }

  lemma TakingNext(nd: Node, mask: seq<bool>, rest: seq<nat>, ports: seq<nat>, cpuArr: seq<seq<nat>>, unit: nat,
                   less: seq<bool>, cpu: seq<nat>)
    requires Taking(nd, mask, rest, ports, cpuArr, unit) && rest != []
    requires |cpu| == unit && |less| == |mask| && Free(mask) == Free(less) + multiset(cpu)
    ensures Taking(nd, less, rest[1..], ports + [rest[0]], cpuArr + [cpu], unit)
  {
    MoveFirst(ports, rest);
    EachMore(cpuArr, cpu, unit);
    FlattenMore(cpuArr, cpu);
    Regroup(Free(less), multiset(cpu), multiset(Flatten(cpuArr)));
  }

  /** `ports` and `cpus` were taken from the node: `unit` CPUs to each port, and as many slots as CPUs. */
  ghost predicate Served(nd: Node, left: Node, ports: seq<nat>, cpus: seq<nat>, unit: nat) {
    && unit >= 1 && |ports| > 0 && |cpus| == Times(|ports|, unit)
    && left.ip == nd.ip && |left.cpuMask| == |nd.cpuMask|
    && left.slot >= 0 && left.slot + |cpus| == nd.slot && Whole(left.slot, unit)
    && multiset(nd.ports) == multiset(left.ports) + multiset(ports)
    && Free(nd.cpuMask) == Free(left.cpuMask) + multiset(cpus)
  }

  lemma AllTaken(nd: Node, mask: seq<bool>, rest: seq<nat>, ports: seq<nat>, cpuArr: seq<seq<nat>>, unit: nat, useSlot: nat)
    requires unit >= 1 && Taking(nd, mask, rest, ports, cpuArr, unit) && |ports| > 0
    requires useSlot == Times(|ports|, unit) <= nd.slot && Whole(nd.slot - useSlot, unit)
    ensures Served(nd, nd.(slot := nd.slot - useSlot, ports := rest, cpuMask := mask), ports, Flatten(cpuArr), unit)
  {
    EachSize(cpuArr, unit);
    assert multiset(ports + rest) == multiset(rest) + multiset(ports);
  }

  /** While slots are still wanted, the node has a port and a container's CPUs left. */
  lemma RoomToTake(nd: Node, mask: seq<bool>, rest: seq<nat>, ports: seq<nat>, cpuArr: seq<seq<nat>>, unit: nat, useSlot: nat)
    requires unit >= 1 && Taking(nd, mask, rest, ports, cpuArr, unit)
    requires Times(|ports|, unit) < useSlot && Whole(Times(|ports|, unit), unit) && Whole(useSlot, unit)
    requires |Free(nd.cpuMask)| >= useSlot && |nd.ports| >= useSlot
    ensures rest != [] && |Free(mask)| >= unit
    ensures Times(|ports|, unit) + unit <= useSlot && Whole(Times(|ports|, unit) + unit, unit)
  {
    WholeStep(Times(|ports|, unit), useSlot, unit);
    CountTimes(|ports|, unit);
    EachSize(cpuArr, unit);
    FreeLeft(nd.cpuMask, mask, Flatten(cpuArr));
  }

  /** `useSlot` slots of one node: a port and `unit` CPUs per container, the CPUs shared by all of them. */
  method TakeNode(nd: Node, useSlot: nat, unit: nat)
    returns (left: Node, ports: seq<nat>, cpuArr: seq<seq<nat>>, cpus: seq<nat>)
    requires unit >= 1 && 0 < useSlot <= nd.slot && Whole(useSlot, unit) && Whole(nd.slot - useSlot, unit)
    requires |Free(nd.cpuMask)| >= useSlot && |nd.ports| >= useSlot
    ensures Served(nd, left, ports, cpus, unit) && |cpus| == useSlot
    ensures |cpuArr| == |ports| && Each(cpuArr, unit) && cpus == Flatten(cpuArr)
  {
    var mask, rest := nd.cpuMask, nd.ports;
    var cpuP: nat, i: nat := 0, 0;
    ports, cpuArr, cpus := [], [], [];
    while i < useSlot
      invariant Taking(nd, mask, rest, ports, cpuArr, unit) && cpus == Flatten(cpuArr)
      invariant i == Times(|ports|, unit) <= useSlot && Whole(i, unit)
      invariant cpuP <= |mask| && forall k :: 0 <= k < cpuP ==> mask[k]
    {
      RoomToTake(nd, mask, rest, ports, cpuArr, unit, useSlot);
      var less, cpu;
      less, cpuP, cpu := TakeCpus(mask, cpuP, unit);
      // the string slice would fail on an empty list
      assert |cpu| > 0;
      TakingNext(nd, mask, rest, ports, cpuArr, unit, less, cpu);
      FlattenMore(cpuArr, cpu);
      mask, ports, rest := less, ports + [rest[0]], rest[1..];
      cpuArr, cpus := cpuArr + [cpu], cpus + cpu;
      i := i + unit;
    }
    left := nd.(slot := nd.slot - useSlot, ports := rest, cpuMask := mask);
    AllTaken(nd, mask, rest, ports, cpuArr, unit, useSlot);
  }

  // ---- Drawing from the sorted nodes ----

  lemma NothingDrawn(nd: Node, unit: nat)
    requires unit >= 1 && nd.slot >= 0 && Whole(nd.slot, unit)
    ensures Drawn(nd, nd, [], unit)
  {
  }

  /** A batch on one node leaves what was drawn from the others alone. */
  lemma DrawnElsewhere(nd: Node, left: Node, cs: seq<Container>, b: seq<Container>, unit: nat)
    requires Drawn(nd, left, cs, unit) && forall c :: c in b ==> c.ip != nd.ip
    ensures Drawn(nd, left, cs + b, unit)
  {
    NoneThere(b, nd.ip);
    CountAppend(cs, b, nd.ip);
    PortsAppend(cs, b, nd.ip);
  }

  lemma FirstBatch(cs: seq<Container>, ip: string, ports: seq<nat>, cpus: seq<nat>)
    requires |ports| > 0 && forall c :: c in cs ==> c.ip != ip
    ensures var all := cs + Batch(ip, ports, cpus);
      CountAt(all, ip) == |ports| && PortsAt(all, ip) == multiset(ports) && CpuListAt(all, ip) == cpus
  {
    NoneThere(cs, ip);
    BatchHolds(ip, ports, cpus);
    CountAppend(cs, Batch(ip, ports, cpus), ip);
    PortsAppend(cs, Batch(ip, ports, cpus), ip);
  }

  /** The first batch on a node. */
  lemma DrawnHere(nd: Node, left: Node, cs: seq<Container>, ports: seq<nat>, cpus: seq<nat>, unit: nat)
    requires Served(nd, left, ports, cpus, unit) && forall c :: c in cs ==> c.ip != nd.ip
    ensures Drawn(nd, left, cs + Batch(nd.ip, ports, cpus), unit)
  {
    FirstBatch(cs, nd.ip, ports, cpus);
  }

  /** Where the draw stands: `cs` has been cut from the first `n` of the sorted nodes `s`, leaving `cur`. */
  ghost predicate Drawing(s: seq<Node>, cur: seq<Node>, cs: seq<Container>, n: nat, unit: nat) {
    && |cur| == |s| && n <= |s|
    && (forall i :: 0 <= i < |s| ==> Drawn(s[i], cur[i], cs, unit))
    && (forall i :: n <= i < |s| ==> cur[i] == s[i])
    && (forall i, c :: n <= i < |s| && c in cs ==> c.ip != s[i].ip)
    && SharedCpus(cs)
  }

  ghost predicate Fits(nd: Node, unit: nat) {
    unit >= 1 && nd.slot >= 0 && Whole(nd.slot, unit) && |Free(nd.cpuMask)| >= nd.slot && |nd.ports| >= 2 * nd.slot
  }

  lemma DrawNext(s: seq<Node>, cur: seq<Node>, cs: seq<Container>, n: nat, unit: nat,
                 left: Node, ports: seq<nat>, cpus: seq<nat>)
    requires Drawing(s, cur, cs, n, unit) && DistinctIps(s) && n < |s| && |ports| > 0
    requires Drawn(s[n], left, cs + Batch(s[n].ip, ports, cpus), unit)
    ensures Drawing(s, cur[n := left], cs + Batch(s[n].ip, ports, cpus), n + 1, unit)
  {
    var b := Batch(s[n].ip, ports, cpus);
    forall i | 0 <= i < |s| && i != n
      ensures Drawn(s[i], cur[i], cs + b, unit)
    {
      DrawnElsewhere(s[i], cur[i], cs, b, unit);
    }
  }

  /** The coordinator's port comes from a node that gave up a container, so one is left. */
  lemma PortLeft(nd: Node, left: Node, cs: seq<Container>, unit: nat)
    requires Drawn(nd, left, cs, unit) && Fits(nd, unit) && CountAt(cs, nd.ip) > 0
    ensures |left.ports| > 0
  {
    PortsSize(cs, nd.ip);
    CountTimes(CountAt(cs, nd.ip), unit);
    assert |multiset(nd.ports)| == |nd.ports| && |multiset(left.ports)| == |left.ports|;
  }

  /** What a grant takes from a node, coordinator included. */
  ghost predicate Moved(nd: Node, left: Node, h: Holding, unit: nat) {
    && left.ip == nd.ip && |left.cpuMask| == |nd.cpuMask|
    && unit >= 1 && 0 <= left.slot && Whole(left.slot, unit)
    && nd.slot == left.slot + h.slots
    && multiset(nd.ports) == multiset(left.ports) + h.ports
    && Free(nd.cpuMask) == Free(left.cpuMask) + h.cpus
  }

  /** Conservation: what leaves the node is held. */
  lemma MovedKeeps(nd: Node, left: Node, held: Holding, h: Holding, unit: nat, capacity: nat, cpus: nat)
    requires NodeOk(nd, held, unit, capacity, cpus) && Moved(nd, left, h, unit)
    ensures NodeOk(left, Plus(held, h), unit, capacity, cpus)
  {
    Regroup(multiset(left.ports), h.ports, held.ports);
    Regroup(Free(left.cpuMask), h.cpus, held.cpus);
  }

  /** Conservation: what comes back is no longer held. */
  lemma ReturnedKeeps(left: Node, nd: Node, held: Holding, h: Holding, unit: nat, capacity: nat, cpus: nat)
    requires NodeOk(left, Plus(held, h), unit, capacity, cpus) && Moved(nd, left, h, unit)
    requires 0 <= nd.slot && Whole(nd.slot, unit)
    ensures NodeOk(nd, held, unit, capacity, cpus)
  {
    Regroup(multiset(left.ports), h.ports, held.ports);
    Regroup(Free(left.cpuMask), h.cpus, held.cpus);
  }

  lemma FirstMoves(nd: Node, left: Node, cs: seq<Container>, unit: nat)
    requires Drawn(nd, left, cs, unit) && |left.ports| > 0
    ensures Moved(nd, left.(ports := left.ports[1..]), HeldBy(Grant(cs, nd.ip, left.ports[0]), unit, nd.ip), unit)
  {
    assert left.ports == [left.ports[0]] + left.ports[1..];
    Regroup(multiset(left.ports[1..]), multiset{left.ports[0]}, PortsAt(cs, nd.ip));
  }

  lemma OtherMoves(nd: Node, left: Node, cs: seq<Container>, unit: nat, ip: string, port: nat)
    requires Drawn(nd, left, cs, unit) && ip != nd.ip
    ensures Moved(nd, left, HeldBy(Grant(cs, ip, port), unit, nd.ip), unit)
  {
  }

  ghost predicate AtNode(s: seq<Node>, ip: string) {
    exists i :: 0 <= i < |s| && s[i].ip == ip
  }

  ghost predicate KnownIps(s: seq<Node>, cs: seq<Container>) {
    forall c :: c in cs ==> AtNode(s, c.ip)
  }

  ghost predicate SameIps(a: seq<Node>, b: seq<Node>) {
    forall ip :: AtNode(a, ip) <==> AtNode(b, ip)
  }

  lemma SameIpsPermuted(a: seq<Node>, b: seq<Node>)
    requires multiset(a) == multiset(b)
    ensures SameIps(a, b)
  {
    forall ip
      ensures AtNode(a, ip) <==> AtNode(b, ip)
    {
      if i :| 0 <= i < |a| && a[i].ip == ip { assert a[i] in multiset(b); }
      if i :| 0 <= i < |b| && b[i].ip == ip { assert b[i] in multiset(a); }
    }
  }

  lemma SameIpsInPlace(a: seq<Node>, b: seq<Node>)
    requires |a| == |b| && forall i :: 0 <= i < |a| ==> a[i].ip == b[i].ip
    ensures SameIps(a, b)
  {
    forall ip
      ensures AtNode(a, ip) <==> AtNode(b, ip)
    {
      if i :| 0 <= i < |a| && a[i].ip == ip { assert b[i].ip == ip; }
      if i :| 0 <= i < |b| && b[i].ip == ip { assert a[i].ip == ip; }
    }
  }

  /** Every container given out is on one of the nodes. */
  ghost predicate Addressed(nodes: seq<Node>, gs: seq<Grant>) {
    forall g :: g in gs ==> KnownIps(nodes, g.containers)
  }

  lemma AddressedKept(nodes: seq<Node>, after: seq<Node>, gs: seq<Grant>, more: seq<Grant>)
    requires Addressed(nodes, gs) && SameIps(nodes, after)
    requires forall g :: g in more ==> g in gs || KnownIps(nodes, g.containers)
    ensures Addressed(after, more)
  {
    forall g, c | g in more && c in g.containers
      ensures AtNode(after, c.ip)
    {
      assert KnownIps(nodes, g.containers) && AtNode(nodes, c.ip);
    }
  }

  lemma AddressedWithout(nodes: seq<Node>, after: seq<Node>, gs: seq<Grant>, k: nat)
    requires Addressed(nodes, gs) && SameIps(nodes, after) && k < |gs|
    ensures Addressed(after, Without(gs, k))
  {
    forall g | g in Without(gs, k)
      ensures g in gs
    {
    }
    AddressedKept(nodes, after, gs, Without(gs, k));
  }

  /** A new grant on the sorted nodes `s` is on the nodes afterwards, and so is what was held before. */
  lemma GrantAddressed(nodes: seq<Node>, s: seq<Node>, after: seq<Node>, gs: seq<Grant>, g: Grant)
    requires multiset(s) == multiset(nodes) && SameIps(s, after) && KnownIps(s, g.containers) && Addressed(nodes, gs)
    ensures SameIps(nodes, after) && KnownIps(after, g.containers) && Addressed(after, gs + [g])
  {
    SameIpsPermuted(nodes, s);
    forall ip
      ensures AtNode(nodes, ip) <==> AtNode(after, ip)
    {
      assert AtNode(nodes, ip) <==> AtNode(s, ip);
    }
    forall c | c in g.containers
      ensures AtNode(after, c.ip) && AtNode(nodes, c.ip)
    {
      assert AtNode(s, c.ip);
    }
    AddressedKept(nodes, after, gs, gs + [g]);
  }

  lemma GrantIsOk(s: seq<Node>, cur: seq<Node>, cs: seq<Container>, n: nat, unit: nat, port: nat)
    requires Drawing(s, cur, cs, n, unit) && 0 < n && CountAt(cs, s[0].ip) > 0
    requires KnownIps(s, cs)
    ensures GrantOk(Grant(cs, s[0].ip, port), unit)
  {
    forall ip
      ensures |CpuListAt(cs, ip)| == Times(CountAt(cs, ip), unit)
    {
      if AtNode(s, ip) {
        var i :| 0 <= i < |s| && s[i].ip == ip;
        assert Drawn(s[i], cur[i], cs, unit);
      } else {
        NoneThere(cs, ip);
      }
    }
  }

  /** Where the count stands: `totalRet` slots are still to be found. */
  ghost predicate Counted(s: seq<Node>, cur: seq<Node>, cs: seq<Container>, n: nat, total: nat, totalRet: nat, unit: nat) {
    && n <= |s|
    && Times(|cs|, unit) + totalRet == total && SumSlots(cur) == SumSlots(s) - (total - totalRet)
    && (totalRet > 0 ==> total - totalRet == SumSlots(s[..n]))
    && (if n == 0 then totalRet == total else CountAt(cs, s[0].ip) > 0)
    && KnownIps(s, cs)
  }

  /** Use up a node, or what is still wanted of it. */
  method DrawOne(nd: Node, totalRet: nat, unit: nat)
    returns (left: Node, ports: seq<nat>, cpuArr: seq<seq<nat>>, cpus: seq<nat>)
    requires Fits(nd, unit) && nd.slot > 0 && totalRet > 0 && Whole(totalRet, unit)
    ensures Served(nd, left, ports, cpus, unit)
    ensures |cpuArr| == |ports| && Each(cpuArr, unit) && cpus == Flatten(cpuArr)
    ensures |cpus| <= totalRet && (|cpus| < totalRet ==> |cpus| == nd.slot) && Whole(totalRet - |cpus|, unit)
  {
    var useSlot: nat := nd.slot;
    if totalRet < useSlot { useSlot := totalRet; }
    WholeMinus(nd.slot, useSlot, unit);
    WholeMinus(totalRet, useSlot, unit);
    left, ports, cpuArr, cpus := TakeNode(nd, useSlot, unit);
  }

  lemma BatchCounts(s: seq<Node>, n: nat, cs: seq<Container>, ports: seq<nat>, cpus: seq<nat>, unit: nat)
    requires n < |s| && |ports| > 0 && (n > 0 ==> CountAt(cs, s[0].ip) > 0)
    ensures CountAt(cs + Batch(s[n].ip, ports, cpus), s[0].ip) > 0
    ensures Times(|cs + Batch(s[n].ip, ports, cpus)|, unit) == Times(|cs|, unit) + Times(|ports|, unit)
  {
    CountAppend(cs, Batch(s[n].ip, ports, cpus), s[0].ip);
    BatchHolds(s[n].ip, ports, cpus);
    TimesPlus(|cs|, |ports|, unit);
  }

  lemma CountNext(s: seq<Node>, cur: seq<Node>, cs: seq<Container>, n: nat, total: nat, totalRet: nat, unit: nat,
                  left: Node, ports: seq<nat>, cpus: seq<nat>)
    requires Counted(s, cur, cs, n, total, totalRet, unit) && n < |s| == |cur| && cur[n] == s[n]
    requires 0 < |ports| && |cpus| == Times(|ports|, unit) && left.slot + |cpus| == s[n].slot
    requires |cpus| <= totalRet && (|cpus| < totalRet ==> |cpus| == s[n].slot)
    ensures Counted(s, cur[n := left], cs + Batch(s[n].ip, ports, cpus), n + 1, total, totalRet - |cpus|, unit)
  {
    BatchCounts(s, n, cs, ports, cpus, unit);
    SumReplace(cur, n, left);
    PrefixNext(s, n);
    assert AtNode(s, s[n].ip);
  }

  /** The node at `ip` contributed containers, one for each list of `cpuArr`; each list has `unit` CPUs, and together
      they are what the containers share. */
  ghost predicate Contributed(cs: seq<Container>, ip: string, cpuArr: seq<seq<nat>>, unit: nat) {
    && CountAt(cs, ip) == |cpuArr| > 0 && Each(cpuArr, unit)
    && CpuListAt(cs, ip) == Flatten(cpuArr)
  }

  lemma BatchContributes(cs: seq<Container>, ip: string, ports: seq<nat>, cpuArr: seq<seq<nat>>, unit: nat)
    requires |cpuArr| == |ports| > 0 && Each(cpuArr, unit) && forall c :: c in cs ==> c.ip != ip
    ensures Contributed(cs + Batch(ip, ports, Flatten(cpuArr)), ip, cpuArr, unit)
  {
    FirstBatch(cs, ip, ports, Flatten(cpuArr));
  }

  /** The books of the draw after node `k` has given `ports` and `cpus`. */
  lemma DrawStep(s: seq<Node>, cur: seq<Node>, cs: seq<Container>, k: nat, total: nat, totalRet: nat, unit: nat,
                 left: Node, ports: seq<nat>, cpus: seq<nat>)
    requires DistinctIps(s) && k < |s| && Drawing(s, cur, cs, k, unit) && Counted(s, cur, cs, k, total, totalRet, unit) && Whole(totalRet, unit)
    requires Served(s[k], left, ports, cpus, unit) && |cpus| <= totalRet
    requires |cpus| < totalRet ==> |cpus| == s[k].slot
    ensures forall c :: c in cs ==> c.ip != s[k].ip
    ensures Drawing(s, cur[k := left], cs + Batch(s[k].ip, ports, cpus), k + 1, unit)
    ensures Counted(s, cur[k := left], cs + Batch(s[k].ip, ports, cpus), k + 1, total, totalRet - |cpus|, unit)
  {
    assert cur[k] == s[k] && forall c :: c in cs ==> c.ip != s[k].ip;
    DrawnHere(s[k], left, cs, ports, cpus, unit);
    DrawNext(s, cur, cs, k, unit, left, ports, cpus);
    CountNext(s, cur, cs, k, total, totalRet, unit, left, ports, cpus);
  }

  ghost predicate AllFit(s: seq<Node>, unit: nat) {
    forall i :: 0 <= i < |s| ==> Fits(s[i], unit)
  }

  /** While slots are still wanted there is a next node, and it has some. */
  lemma NodeThere(s: seq<Node>, cur: seq<Node>, cs: seq<Container>, k: nat, total: nat, totalRet: nat, unit: nat)
    requires BySlot(s) && AllFit(s, unit) && 0 < totalRet && total <= SumSlots(s)
    requires Counted(s, cur, cs, k, total, totalRet, unit)
    ensures k < |s| && s[k].slot > 0 && Fits(s[k], unit)
  {
    HeadHasSlots(s, k);
    assert Fits(s[k], unit);
  }

  /** A container of `cs` is on the node at `ip`. */
  ghost predicate Hosts(cs: seq<Container>, ip: string) {
    exists c :: c in cs && c.ip == ip
  }

  /** The first `n` nodes host containers. */
  ghost predicate Visited(s: seq<Node>, cs: seq<Container>, n: nat) {
    n <= |s| && forall i :: 0 <= i < n ==> Hosts(cs, s[i].ip)
  }

  lemma OneMoreVisited(s: seq<Node>, cs: seq<Container>, n: nat, more: seq<Container>)
    requires Visited(s, cs, n) && n < |s| && cs <= more && CountAt(more, s[n].ip) > 0
    ensures Visited(s, more, n + 1)
  {
    forall i | 0 <= i < n + 1
      ensures Hosts(more, s[i].ip)
    {
      if i < n {
        assert Hosts(cs, s[i].ip);
      } else {
        var c := SomeThere(more, s[n].ip);
      }
    }
  }

  /** A node with more slots than one that hosts a container hosts one, too. */
  ghost predicate LargestFirst(nodes: seq<Node>, cs: seq<Container>) {
    forall a, b :: a in nodes && b in nodes && Hosts(cs, a.ip) && a.slot < b.slot ==> Hosts(cs, b.ip)
  }

  lemma LargestPermuted(s: seq<Node>, nodes: seq<Node>, cs: seq<Container>)
    requires LargestFirst(s, cs) && multiset(s) == multiset(nodes)
    ensures LargestFirst(nodes, cs)
  {
    assert forall nd :: nd in nodes ==> nd in multiset(s);
  }

  lemma HostIsVisited(s: seq<Node>, cur: seq<Node>, cs: seq<Container>, n: nat, unit: nat, i: nat)
    requires Drawing(s, cur, cs, n, unit) && i < |s| && Hosts(cs, s[i].ip)
    ensures i < n
  {
  }

  lemma LargerIsVisited(s: seq<Node>, cs: seq<Container>, n: nat, i: nat, j: nat)
    requires BySlot(s) && Visited(s, cs, n) && i < n && j < |s| && s[i].slot < s[j].slot
    ensures Hosts(cs, s[j].ip)
  {
  }

  lemma SortedIsLargestFirst(s: seq<Node>, cur: seq<Node>, cs: seq<Container>, n: nat, unit: nat)
    requires BySlot(s) && Drawing(s, cur, cs, n, unit) && Visited(s, cs, n)
    ensures LargestFirst(s, cs)
  {
    forall a, b | a in s && b in s && Hosts(cs, a.ip) && a.slot < b.slot
      ensures Hosts(cs, b.ip)
    {
      var i: nat :| i < |s| && s[i] == a;
      var j: nat :| j < |s| && s[j] == b;
      HostIsVisited(s, cur, cs, n, unit, i);
      LargerIsVisited(s, cs, n, i, j);
    }
  }

  /** A node visited by the loop over the sorted nodes: it still has slots, so it contributes a container, and
      none of its CPU lists is empty. */
  method VisitNode(s: seq<Node>, cur: seq<Node>, cs: seq<Container>, k: nat, ghost total: nat, totalRet: nat, unit: nat)
    returns (cur': seq<Node>, cs': seq<Container>, totalRet': nat, cpuArr: seq<seq<nat>>)
    requires DistinctIps(s) && k < |s| && s[k].slot > 0 && Fits(s[k], unit) && 0 < totalRet && Whole(totalRet, unit)
    requires Drawing(s, cur, cs, k, unit) && Counted(s, cur, cs, k, total, totalRet, unit)
    ensures Drawing(s, cur', cs', k + 1, unit) && Counted(s, cur', cs', k + 1, total, totalRet', unit)
    ensures totalRet' < totalRet && Whole(totalRet', unit) && Contributed(cs', s[k].ip, cpuArr, unit) && cs <= cs'
  {
    var left, ports, cpus;
    left, ports, cpuArr, cpus := DrawOne(s[k], totalRet, unit);
    CountTimes(|ports|, unit);
    DrawStep(s, cur, cs, k, total, totalRet, unit, left, ports, cpus);
    BatchContributes(cs, s[k].ip, ports, cpuArr, unit);
    cur' := cur[k := left];
    cs' := cs + Batch(s[k].ip, ports, cpus);
    totalRet' := totalRet - |cpus|;
  }

  /** One turn of the loop over the sorted nodes. */
  method DrawFrom(s: seq<Node>, cur: seq<Node>, cs: seq<Container>, k: nat, ghost total: nat, totalRet: nat, unit: nat)
    returns (cur': seq<Node>, cs': seq<Container>, totalRet': nat)
    requires DistinctIps(s) && BySlot(s) && AllFit(s, unit) && 0 < totalRet && total <= SumSlots(s) && Whole(totalRet, unit)
    requires Drawing(s, cur, cs, k, unit) && Counted(s, cur, cs, k, total, totalRet, unit)
    requires Visited(s, cs, k)
    ensures k < |s| && totalRet' < totalRet && Whole(totalRet', unit) && Visited(s, cs', k + 1)
    ensures Drawing(s, cur', cs', k + 1, unit) && Counted(s, cur', cs', k + 1, total, totalRet', unit)
  {
    NodeThere(s, cur, cs, k, total, totalRet, unit);
    var cpuArr;
    cur', cs', totalRet', cpuArr := VisitNode(s, cur, cs, k, total, totalRet, unit);
    OneMoreVisited(s, cs, k, cs');
  }

  lemma StartDrawing(s: seq<Node>, total: nat, unit: nat)
    requires AllFit(s, unit) && Whole(total, unit)
    ensures Drawing(s, s, [], 0, unit) && Counted(s, s, [], 0, total, total, unit)
  {
    forall i | 0 <= i < |s|
      ensures Drawn(s[i], s[i], [], unit)
    {
      assert Fits(s[i], unit);
      NothingDrawn(s[i], unit);
    }
  }

  /** The loop over the sorted nodes, until nothing is left to find. */
  method Draw(s: seq<Node>, total: nat, unit: nat) returns (cur: seq<Node>, cs: seq<Container>, ghost n: nat)
    requires DistinctIps(s) && BySlot(s) && 0 < total <= SumSlots(s) && unit >= 1 && Whole(total, unit) && AllFit(s, unit)
    ensures Drawing(s, cur, cs, n, unit) && Counted(s, cur, cs, n, total, 0, unit) && Visited(s, cs, n)
  {
    cur, cs := s, [];
    var totalRet: nat, k: nat := total, 0;
    StartDrawing(s, total, unit);
    while totalRet > 0
      invariant Drawing(s, cur, cs, k, unit) && Counted(s, cur, cs, k, total, totalRet, unit) && Whole(totalRet, unit)
      invariant Visited(s, cs, k)
      decreases |s| - k
    {
      cur, cs, totalRet := DrawFrom(s, cur, cs, k, total, totalRet, unit);
      k := k + 1;
    }
    n := k;
  }

  // ---- Giving back ----

  /** The port lists by node, as the map collects them. */
  ghost predicate PortsGrouped(ipPort: map<string, seq<nat>>, cs: seq<Container>) {
    && (forall ip :: ip in ipPort <==> CountAt(cs, ip) > 0)
    && (forall ip :: ip in ipPort ==> |ipPort[ip]| == CountAt(cs, ip) && multiset(ipPort[ip]) == PortsAt(cs, ip))
  }

  /** The CPU lists by node: the last one seen. */
  ghost predicate CpusGrouped(ipCpuSet: map<string, seq<nat>>, cs: seq<Container>) {
    && (forall ip :: ip in ipCpuSet <==> CountAt(cs, ip) > 0)
    && (forall ip :: ip in ipCpuSet ==> ipCpuSet[ip] == CpuListAt(cs, ip))
  }

  lemma {:induction false} NonePorts(cs: seq<Container>, ip: string)
    ensures CountAt(cs, ip) == 0 ==> PortsAt(cs, ip) == multiset{} && CpuListAt(cs, ip) == []
  {
    if cs != [] { NonePorts(cs[..|cs| - 1], ip); }
  }

  lemma GroupPort(ipPort: map<string, seq<nat>>, cs: seq<Container>, i: nat)
    requires i < |cs| && PortsGrouped(ipPort, cs[..i])
    ensures var before := if cs[i].ip in ipPort then ipPort[cs[i].ip] else [];
      PortsGrouped(ipPort[cs[i].ip := before + [cs[i].port]], cs[..i + 1])
  {
    assert cs[..i + 1][..i] == cs[..i];
    NonePorts(cs[..i], cs[i].ip);
  }

  lemma GroupCpu(ipCpuSet: map<string, seq<nat>>, cs: seq<Container>, i: nat)
    requires i < |cs| && CpusGrouped(ipCpuSet, cs[..i])
    ensures CpusGrouped(ipCpuSet[cs[i].ip := cs[i].cpuSet], cs[..i + 1])
  {
    assert cs[..i + 1][..i] == cs[..i];
  }

  method GroupByIp(cs: seq<Container>) returns (ipPort: map<string, seq<nat>>, ipCpuSet: map<string, seq<nat>>)
    ensures PortsGrouped(ipPort, cs) && CpusGrouped(ipCpuSet, cs)
  {
    ipPort, ipCpuSet := map[], map[];
    for i := 0 to |cs|
      invariant PortsGrouped(ipPort, cs[..i]) && CpusGrouped(ipCpuSet, cs[..i])
    {
      var ip := cs[i].ip;
      GroupPort(ipPort, cs, i);
      GroupCpu(ipCpuSet, cs, i);
      var ports := [];
      if ip in ipPort { ports := ipPort[ip]; }
      ipPort := ipPort[ip := ports + [cs[i].port]];
      ipCpuSet := ipCpuSet[ip := cs[i].cpuSet];
    }
    assert cs[..|cs|] == cs;
  }

  lemma HeldCpu(mask0: seq<bool>, mask: seq<bool>, cpus: seq<nat>, i: nat)
    requires Free(mask0) + multiset(cpus) <= Free(NoneTaken(|mask0|)) && i < |cpus| && |mask| == |mask0|
    requires Free(mask) == Free(mask0) + multiset(cpus[..i])
    ensures cpus[i] < |mask| && mask[cpus[i]]
  {
    var x := cpus[i];
    assert cpus == cpus[..i] + [x] + cpus[i + 1..];
    FreeCount(NoneTaken(|mask0|), x);
    FreeCount(mask, x);
    assert (Free(mask0) + multiset(cpus))[x] <= Free(NoneTaken(|mask0|))[x];
  }

  lemma ClearOne(mask: seq<bool>, x: nat)
    requires x < |mask| && mask[x]
    ensures Free(mask[x := false]) == Free(mask) + multiset{x}
  {
    MarkCpu(mask[x := false], x);
    assert mask[x := false][x := true] == mask;
  }

  lemma Gained(start: multiset<nat>, a: multiset<nat>, x: multiset<nat>, before: multiset<nat>, after: multiset<nat>)
    requires before == start + a && after == before + x
    ensures after == start + (a + x)
  {
  }

  lemma ClearNext(start: multiset<nat>, mask: seq<bool>, cpus: seq<nat>, i: nat)
    requires i < |cpus| && cpus[i] < |mask| && mask[cpus[i]] && Free(mask) == start + multiset(cpus[..i])
    ensures Free(mask[cpus[i] := false]) == start + multiset(cpus[..i + 1])
  {
    var a, x := multiset(cpus[..i]), cpus[i];
    ClearOne(mask, x);
    assert cpus[..i + 1] == cpus[..i] + [x];
    MultisetAppend(cpus[..i], x);
    Gained(start, a, multiset{x}, Free(mask), Free(mask[x := false]));
  }

  /** Clearing the mask bits of held CPUs. */
  method ClearCpus(mask0: seq<bool>, cpus: seq<nat>) returns (mask: seq<bool>)
    requires Free(mask0) + multiset(cpus) <= Free(NoneTaken(|mask0|))
    ensures |mask| == |mask0| && Free(mask) == Free(mask0) + multiset(cpus)
  {
    mask := mask0;
    for i := 0 to |cpus|
      invariant |mask| == |mask0| && Free(mask) == Free(mask0) + multiset(cpus[..i])
    {
      HeldCpu(mask0, mask, cpus, i);
      ClearNext(Free(mask0), mask, cpus, i);
      mask := mask[cpus[i] := false];
    }
    assert cpus[..|cpus|] == cpus;
  }

  /** A node after `Put`: ports appended, slots added, CPUs unmarked. */
  method GiveBack(nd: Node, ports: seq<nat>, cpus: seq<nat>, unit: nat) returns (back: Node)
    requires unit >= 1 && nd.slot >= 0 && Whole(nd.slot, unit)
    requires Free(nd.cpuMask) + multiset(cpus) <= Free(NoneTaken(|nd.cpuMask|))
    ensures back.ip == nd.ip && |back.cpuMask| == |nd.cpuMask| && back.slot == nd.slot + Times(|ports|, unit)
    ensures back.ports == nd.ports + ports && Free(back.cpuMask) == Free(nd.cpuMask) + multiset(cpus)
    ensures Whole(back.slot, unit)
  {
    TimesIsProduct(|ports|, unit);
    WholePlus(nd.slot, |ports|, unit);
    var mask := ClearCpus(nd.cpuMask, cpus);
    back := nd.(slot := nd.slot + |ports| * unit, ports := nd.ports + ports, cpuMask := mask);
  }

  /** What `Put` gives back to a node is what the grant took from it. */
  lemma BackMoves(nd: Node, back: Node, cs: seq<Container>, ports: seq<nat>, ip: string, port: nat, unit: nat)
    requires unit >= 1 && nd.slot >= 0 && Whole(nd.slot, unit)
    requires back.ip == nd.ip && |back.cpuMask| == |nd.cpuMask| && back.slot == nd.slot + Times(CountAt(cs, nd.ip), unit)
    requires multiset(ports) == PortsAt(cs, nd.ip)
    requires back.ports == nd.ports + ports + (if ip == nd.ip then [port] else [])
    requires Free(back.cpuMask) == Free(nd.cpuMask) + multiset(CpuListAt(cs, nd.ip))
    ensures Moved(back, nd, HeldBy(Grant(cs, ip, port), unit, nd.ip), unit)
  {
    var tail: seq<nat> := if ip == nd.ip then [port] else [];
    assert multiset(nd.ports + ports + tail) == multiset(nd.ports) + (PortsAt(cs, nd.ip) + multiset(tail));
  }

  /** Held CPUs are in the mask and marked. */
  lemma HeldRoom(nd: Node, held: Holding, h: Holding, unit: nat, capacity: nat, cpus: nat)
    requires NodeOk(nd, Plus(held, h), unit, capacity, cpus)
    ensures Free(nd.cpuMask) + h.cpus <= Free(NoneTaken(|nd.cpuMask|))
  {
    assert Free(nd.cpuMask) + h.cpus <= Free(nd.cpuMask) + (held.cpus + h.cpus);
  }

  // ---- The books ----

  /** What a node must add up to. */
  datatype Limits = Limits(unit: nat, cpus: nat, capacity: map<string, nat>)

  ghost predicate Sane(l: Limits) {
    l.unit >= 1 && 2 * l.cpus <= 1001
  }

  /** On this node free plus held is constant. */
  ghost predicate Conserved(nd: Node, gs: seq<Grant>, l: Limits) {
    nd.ip in l.capacity && NodeOk(nd, Held(gs, l.unit, nd.ip), l.unit, l.capacity[nd.ip], l.cpus)
  }

  ghost predicate GrantsOk(gs: seq<Grant>, unit: nat) {
    forall g :: g in gs ==> GrantOk(g, unit)
  }

  ghost predicate Books(nodes: seq<Node>, gs: seq<Grant>, l: Limits) {
    && Sane(l) && DistinctIps(nodes) && GrantsOk(gs, l.unit)
    && forall i :: 0 <= i < |nodes| ==> Conserved(nodes[i], gs, l)
  }

  lemma SortedFits(nodes: seq<Node>, s: seq<Node>, gs: seq<Grant>, l: Limits, i: nat)
    requires Books(nodes, gs, l) && multiset(s) == multiset(nodes) && i < |s|
    ensures Fits(s[i], l.unit) && Conserved(s[i], gs, l)
  {
    assert s[i] in multiset(nodes);
    HeldFits(gs, l.unit, s[i].ip);
    EnoughFree(s[i], Held(gs, l.unit, s[i].ip), l.unit, l.capacity[s[i].ip], l.cpus);
  }

  lemma SortedBooks(nodes: seq<Node>, s: seq<Node>, gs: seq<Grant>, l: Limits)
    requires Books(nodes, gs, l) && multiset(s) == multiset(nodes) && DistinctIps(s)
    ensures Books(s, gs, l) && AllFit(s, l.unit)
  {
    forall i: nat | i < |s|
      ensures Fits(s[i], l.unit) && Conserved(s[i], gs, l)
    {
      SortedFits(nodes, s, gs, l, i);
    }
  }

  lemma {:induction false} CountMember(cs: seq<Container>, c: Container)
    requires c in cs
    ensures CountAt(cs, c.ip) > 0
  {
    if cs[|cs| - 1].ip != c.ip { CountMember(cs[..|cs| - 1], c); }
  }

  lemma ListsFit(g: Grant, unit: nat)
    requires GrantOk(g, unit) && unit >= 1
    ensures forall c :: c in g.containers ==> |c.cpuSet| >= unit
  {
    forall c | c in g.containers
      ensures |c.cpuSet| >= unit
    {
      CpuListOf(g.containers, c);
      CountMember(g.containers, c);
    }
  }

  /** A node stays conserved when its part of a new grant is taken. */
  lemma TakenConserved(nd: Node, left: Node, gs: seq<Grant>, g: Grant, l: Limits)
    requires Conserved(nd, gs, l) && Moved(nd, left, HeldBy(g, l.unit, nd.ip), l.unit)
    ensures Conserved(left, gs + [g], l)
  {
    MovedKeeps(nd, left, Held(gs, l.unit, nd.ip), HeldBy(g, l.unit, nd.ip), l.unit, l.capacity[nd.ip], l.cpus);
    HeldWith(gs, l.unit, g, nd.ip);
  }

  /** Every node stays conserved, the first one giving the coordinator's port as well. */
  lemma DrawnConserved(s: seq<Node>, cur: seq<Node>, cs: seq<Container>, n: nat, gs: seq<Grant>, l: Limits, i: nat)
    requires DistinctIps(s) && 0 < n && Drawing(s, cur, cs, n, l.unit) && |cur[0].ports| > 0
    requires i < |s| && Conserved(s[i], gs, l)
    ensures var after := cur[0 := cur[0].(ports := cur[0].ports[1..])];
      after[i].ip == s[i].ip && Conserved(after[i], gs + [Grant(cs, s[0].ip, cur[0].ports[0])], l)
  {
    var after := cur[0 := cur[0].(ports := cur[0].ports[1..])];
    assert Drawn(s[i], cur[i], cs, l.unit);
    if i == 0 {
      FirstMoves(s[0], cur[0], cs, l.unit);
    } else {
      OtherMoves(s[i], cur[i], cs, l.unit, s[0].ip, cur[0].ports[0]);
    }
    TakenConserved(s[i], after[i], gs, Grant(cs, s[0].ip, cur[0].ports[0]), l);
  }

  lemma DrawnBooks(s: seq<Node>, cur: seq<Node>, cs: seq<Container>, n: nat, gs: seq<Grant>, l: Limits)
    requires Books(s, gs, l) && 0 < n && Drawing(s, cur, cs, n, l.unit) && |cur[0].ports| > 0
    requires GrantOk(Grant(cs, s[0].ip, cur[0].ports[0]), l.unit)
    ensures Books(cur[0 := cur[0].(ports := cur[0].ports[1..])], gs + [Grant(cs, s[0].ip, cur[0].ports[0])], l)
  {
    var after, more := cur[0 := cur[0].(ports := cur[0].ports[1..])], gs + [Grant(cs, s[0].ip, cur[0].ports[0])];
    forall i: nat | i < |s|
      ensures after[i].ip == s[i].ip && Conserved(after[i], more, l)
    {
      DrawnConserved(s, cur, cs, n, gs, l, i);
    }
  }

  lemma DrawnInPlace(s: seq<Node>, cur: seq<Node>, cs: seq<Container>, n: nat, unit: nat)
    requires Drawing(s, cur, cs, n, unit) && 0 < |s| && |cur[0].ports| > 0
    ensures SameIps(s, cur[0 := cur[0].(ports := cur[0].ports[1..])])
  {
    var after := cur[0 := cur[0].(ports := cur[0].ports[1..])];
    forall i | 0 <= i < |s|
      ensures s[i].ip == after[i].ip
    {
      assert Drawn(s[i], cur[i], cs, unit);
    }
    SameIpsInPlace(s, after);
  }

  /** Draw the containers, then the coordinator's port. */
  method Allocate(s: seq<Node>, total: nat, unit: nat, ghost gs: seq<Grant>, ghost l: Limits)
    returns (after: seq<Node>, cs: seq<Container>, ip: string, port: nat)
    requires Books(s, gs, l) && unit == l.unit && BySlot(s) && 0 < total <= SumSlots(s) && Whole(total, unit)
    requires AllFit(s, unit)
    ensures Books(after, gs + [Grant(cs, ip, port)], l) && SumSlots(after) == SumSlots(s) - total
    ensures Times(|cs|, unit) == total && GrantOk(Grant(cs, ip, port), unit)
    ensures SameIps(s, after) && KnownIps(s, cs) && LargestFirst(s, cs)
  {
    var cur;
    ghost var n;
    cur, cs, n := Draw(s, total, unit);
    SortedIsLargestFirst(s, cur, cs, n, unit);
    assert 0 < n && 0 < |s| && CountAt(cs, s[0].ip) > 0;
    assert Drawn(s[0], cur[0], cs, unit) && Fits(s[0], unit);
    PortLeft(s[0], cur[0], cs, unit);
    ip, port := s[0].ip, cur[0].ports[0];
    GrantIsOk(s, cur, cs, n, unit, port);
    after := cur[0 := cur[0].(ports := cur[0].ports[1..])];
    SumReplace(cur, 0, after[0]);
    DrawnBooks(s, cur, cs, n, gs, l);
    DrawnInPlace(s, cur, cs, n, unit);
  }

  function Lookup(m: map<string, seq<nat>>, ip: string): seq<nat> { if ip in m then m[ip] else [] }

  /** One node after a grant's return. */
  method ReturnTo(nd: Node, ipPort: map<string, seq<nat>>, ipCpuSet: map<string, seq<nat>>, ip: string, port: nat, unit: nat,
                  ghost cs: seq<Container>, ghost gs: seq<Grant>, ghost rest: seq<Grant>, ghost l: Limits)
    returns (back: Node, gained: nat)
    requires PortsGrouped(ipPort, cs) && CpusGrouped(ipCpuSet, cs) && unit == l.unit && Conserved(nd, gs, l)
    requires Held(gs, unit, nd.ip) == Plus(Held(rest, unit, nd.ip), HeldBy(Grant(cs, ip, port), unit, nd.ip))
    ensures back.ip == nd.ip && Conserved(back, rest, l) && back.slot == nd.slot + gained
    ensures gained == Times(CountAt(cs, nd.ip), unit)
  {
    ghost var h := HeldBy(Grant(cs, ip, port), unit, nd.ip);
    NonePorts(cs, nd.ip);
    HeldRoom(nd, Held(rest, unit, nd.ip), h, unit, l.capacity[nd.ip], l.cpus);
    var ports, list := Lookup(ipPort, nd.ip), Lookup(ipCpuSet, nd.ip);
    back := GiveBack(nd, ports, list, unit);
    if nd.ip == ip { back := back.(ports := back.ports + [port]); } else { assert back.ports + [] == back.ports; }
    BackMoves(nd, back, cs, ports, ip, port, unit);
    ReturnedKeeps(nd, back, Held(rest, unit, nd.ip), h, unit, l.capacity[nd.ip], l.cpus);
    TimesIsProduct(|ports|, unit);
    gained := |ports| * unit;
  }

  /** The grant given back, containers reordered, holds on a node what the live grant holds. */
  lemma SameGrant(gs: seq<Grant>, unit: nat, k: nat, cs: seq<Container>, ip: string)
    requires k < |gs| && GrantOk(gs[k], unit) && multiset(cs) == multiset(gs[k].containers)
    ensures Held(gs, unit, ip) ==
      Plus(Held(Without(gs, k), unit, ip), HeldBy(Grant(cs, gs[k].coordinatorIp, gs[k].coordinatorPort), unit, ip))
  {
    HeldWithout(gs, unit, k, ip);
    OrderFree(gs[k].containers, cs, ip);
    CpusOrderFree(gs[k].containers, cs, ip);
  }

  /** How many of the containers are on the first `i` nodes. */
  ghost function CountOn(nodes: seq<Node>, cs: seq<Container>, i: nat): nat
    requires i <= |nodes|
  {
    if i == 0 then 0 else CountOn(nodes, cs, i - 1) + CountAt(cs, nodes[i - 1].ip)
  }

  /** A container is counted at its node alone. */
  lemma {:induction false} CountOneMore(nodes: seq<Node>, cs: seq<Container>, i: nat, k: nat)
    requires cs != [] && i <= |nodes| && k < |nodes| && DistinctIps(nodes) && nodes[k].ip == cs[|cs| - 1].ip
    ensures CountOn(nodes, cs, i) == CountOn(nodes, cs[..|cs| - 1], i) + if k < i then 1 else 0
  {
    if i > 0 { CountOneMore(nodes, cs, i - 1, k); }
  }

  lemma {:induction false} CountNone(nodes: seq<Node>, i: nat)
    requires i <= |nodes|
    ensures CountOn(nodes, [], i) == 0
  {
    if i > 0 { CountNone(nodes, i - 1); }
  }

  lemma {:induction false} CountAll(nodes: seq<Node>, cs: seq<Container>)
    requires DistinctIps(nodes) && KnownIps(nodes, cs)
    ensures CountOn(nodes, cs, |nodes|) == |cs|
  {
    if cs == [] {
      CountNone(nodes, |nodes|);
    } else {
      var last := cs[|cs| - 1];
      assert last in cs && AtNode(nodes, last.ip);
      var k :| 0 <= k < |nodes| && nodes[k].ip == last.ip;
      CountAll(nodes, cs[..|cs| - 1]);
      CountOneMore(nodes, cs, |nodes|, k);
    }
  }

  /** The slots of the containers on the first `i` nodes. */
  ghost function SlotsOn(nodes: seq<Node>, cs: seq<Container>, i: nat, unit: nat): nat
    requires i <= |nodes|
  {
    Times(CountOn(nodes, cs, i), unit)
  }

  lemma SlotsNext(nodes: seq<Node>, cs: seq<Container>, i: nat, unit: nat)
    requires i < |nodes|
    ensures SlotsOn(nodes, cs, i + 1, unit) == SlotsOn(nodes, cs, i, unit) + Times(CountAt(cs, nodes[i].ip), unit)
  {
    TimesPlus(CountOn(nodes, cs, i), CountAt(cs, nodes[i].ip), unit);
  }

  lemma SlotsAll(nodes: seq<Node>, cs: seq<Container>, unit: nat)
    requires DistinctIps(nodes) && KnownIps(nodes, cs)
    ensures SlotsOn(nodes, cs, |nodes|, unit) == |cs| * unit
  {
    CountAll(nodes, cs);
    TimesIsProduct(|cs|, unit);
  }

  lemma ReorderedKnown(nodes: seq<Node>, a: seq<Container>, b: seq<Container>)
    requires KnownIps(nodes, a) && multiset(a) == multiset(b)
    ensures KnownIps(nodes, b) && |a| == |b|
  {
    assert |multiset(a)| == |a| && |multiset(b)| == |b|;
    forall c | c in b
      ensures AtNode(nodes, c.ip)
    {
      assert c in multiset(b);
    }
  }

  /** Half way through a return: the first `i` nodes have their part back. */
  ghost predicate Returning(before: seq<Node>, cur: seq<Node>, i: nat, rest: seq<Grant>, l: Limits) {
    && |cur| == |before| && i <= |before|
    && (forall j :: 0 <= j < |cur| ==> cur[j].ip == before[j].ip)
    && (forall j :: i <= j < |cur| ==> cur[j] == before[j])
    && (forall j :: 0 <= j < i ==> Conserved(cur[j], rest, l))
  }

  lemma ReturningNext(before: seq<Node>, cur: seq<Node>, i: nat, rest: seq<Grant>, l: Limits, back: Node)
    requires Returning(before, cur, i, rest, l) && i < |before| && back.ip == before[i].ip && Conserved(back, rest, l)
    ensures Returning(before, cur[i := back], i + 1, rest, l)
  {
  }

  lemma ReturningDone(before: seq<Node>, cur: seq<Node>, gs: seq<Grant>, k: nat, l: Limits)
    requires Books(before, gs, l) && k < |gs| && Returning(before, cur, |before|, Without(gs, k), l)
    ensures Books(cur, Without(gs, k), l)
  {
  }

  /** After `i` nodes the slots of the containers on them are back. */
  ghost predicate PaidBack(before: seq<Node>, cur: seq<Node>, i: nat, cs: seq<Container>, unit: nat, slots0: int, slots: int)
  {
    i <= |before| && slots == SumSlots(cur) && slots == slots0 + SlotsOn(before, cs, i, unit)
  }

  lemma PaidNext(before: seq<Node>, cur: seq<Node>, i: nat, cs: seq<Container>, unit: nat, slots0: int, slots: int,
                 back: Node, gained: nat)
    requires i < |before| == |cur| && cur[i].ip == before[i].ip && PaidBack(before, cur, i, cs, unit, slots0, slots)
    requires back.slot == cur[i].slot + gained && gained == Times(CountAt(cs, cur[i].ip), unit)
    ensures PaidBack(before, cur[i := back], i + 1, cs, unit, slots0, slots + gained)
  {
    SumReplace(cur, i, back);
    SlotsNext(before, cs, i, unit);
  }

  /** Where the return of the grant `g` stands after `i` nodes. */
  ghost predicate Refunding(before: seq<Node>, cur: seq<Node>, i: nat, g: Grant, rest: seq<Grant>, l: Limits,
                            slots0: int, slots: int)
  {
    match g
    case Grant(cs, _, _) => Returning(before, cur, i, rest, l) && PaidBack(before, cur, i, cs, l.unit, slots0, slots)
  }

  lemma RefundNext(before: seq<Node>, cur: seq<Node>, i: nat, g: Grant, rest: seq<Grant>, l: Limits, slots0: int, slots: int,
                   back: Node, gained: nat)
    requires i < |before| && Refunding(before, cur, i, g, rest, l, slots0, slots) && |cur| == |before|
    requires back.ip == before[i].ip && Conserved(back, rest, l)
    requires back.slot == cur[i].slot + gained && gained == Times(CountAt(g.containers, cur[i].ip), l.unit)
    ensures Refunding(before, cur[i := back], i + 1, g, rest, l, slots0, slots + gained)
  {
    ReturningNext(before, cur, i, rest, l, back);
    PaidNext(before, cur, i, g.containers, l.unit, slots0, slots, back, gained);
  }

  /** One turn of the loop over the nodes. */
  method ReturnNext(before: seq<Node>, cur0: seq<Node>, i: nat, slots0: int, slots1: int,
                    ipPort: map<string, seq<nat>>, ipCpuSet: map<string, seq<nat>>, ip: string, port: nat, unit: nat,
                    ghost cs: seq<Container>, ghost gs: seq<Grant>, ghost k: nat, ghost l: Limits)
    returns (cur: seq<Node>, slots: int)
    requires Books(before, gs, l) && unit == l.unit && k < |gs| && GrantOk(gs[k], unit)
    requires multiset(cs) == multiset(gs[k].containers) && ip == gs[k].coordinatorIp && port == gs[k].coordinatorPort
    requires PortsGrouped(ipPort, cs) && CpusGrouped(ipCpuSet, cs)
    requires i < |before| && Refunding(before, cur0, i, Grant(cs, ip, port), Without(gs, k), l, slots0, slots1)
    ensures Refunding(before, cur, i + 1, Grant(cs, ip, port), Without(gs, k), l, slots0, slots)
  {
    assert cur0[i] == before[i] && Conserved(before[i], gs, l);
    SameGrant(gs, unit, k, cs, cur0[i].ip);
    var back, gained := ReturnTo(cur0[i], ipPort, ipCpuSet, ip, port, unit, cs, gs, Without(gs, k), l);
    RefundNext(before, cur0, i, Grant(cs, ip, port), Without(gs, k), l, slots0, slots1, back, gained);
    cur, slots := cur0[i := back], slots1 + gained;
  }

  lemma RefundBegins(before: seq<Node>, g: Grant, rest: seq<Grant>, l: Limits)
    ensures Refunding(before, before, 0, g, rest, l, SumSlots(before), SumSlots(before))
  {
  }

  lemma RefundDone(before: seq<Node>, cur: seq<Node>, g: Grant, gs: seq<Grant>, k: nat, l: Limits, slots0: int, slots: int)
    requires Books(before, gs, l) && k < |gs| && Refunding(before, cur, |before|, g, Without(gs, k), l, slots0, slots)
    ensures Books(cur, Without(gs, k), l) && SameIps(before, cur)
    ensures PaidBack(before, cur, |before|, g.containers, l.unit, slots0, slots)
  {
    ReturningDone(before, cur, gs, k, l);
    SameIpsInPlace(before, cur);
  }

  /** The loop over the nodes. */
  method ReturnAll(before: seq<Node>, slots0: int, unit: nat, cs: seq<Container>, ip: string, port: nat,
                   ghost gs: seq<Grant>, ghost k: nat, ghost l: Limits)
    returns (cur: seq<Node>, slots: int)
    requires Books(before, gs, l) && unit == l.unit && slots0 == SumSlots(before) && k < |gs| && GrantOk(gs[k], unit)
    requires multiset(cs) == multiset(gs[k].containers) && ip == gs[k].coordinatorIp && port == gs[k].coordinatorPort
    ensures Books(cur, Without(gs, k), l) && SameIps(before, cur)
    ensures PaidBack(before, cur, |before|, cs, unit, slots0, slots)
  {
    var ipPort, ipCpuSet := GroupByIp(cs);
    ghost var g := Grant(cs, ip, port);
    cur, slots := before, slots0;
    RefundBegins(before, g, Without(gs, k), l);
    for i := 0 to |before|
      invariant Refunding(before, cur, i, g, Without(gs, k), l, slots0, slots)
    {
      cur, slots := ReturnNext(before, cur, i, slots0, slots, ipPort, ipCpuSet, ip, port, unit, cs, gs, k, l);
    }
    RefundDone(before, cur, g, gs, k, l, slots0, slots);
  }

  function Untouched(ip: string, cpus: nat, slots: nat): Node { Node(ip, slots, PortPool(), NoneTaken(cpus)) }

  lemma UntouchedOk(ip: string, cpus: nat, slots: nat, unit: nat)
    requires unit >= 1 && slots <= cpus && Whole(slots, unit)
    ensures NodeOk(Untouched(ip, cpus, slots), NONE, unit, slots, cpus)
  {
  }

  /** Slots the configuration says are taken on a worker; none when it lists none. */
  function TakenAt(taken: seq<nat>, i: nat): nat { if i < |taken| then taken[i] else 0 }

  lemma SumMore(s: seq<Node>, x: Node)
    ensures SumSlots(s + [x]) == SumSlots(s) + x.slot
  {
    assert (s + [x])[..|s|] == s;
  }

  /** All of the node's ports from 19000 to 20000 and all its CPUs are free. */
  ghost predicate AsNew(nd: Node, ip: string, cpus: nat, slots: int) {
    && nd.ip == ip && nd.slot == slots && |nd.cpuMask| == cpus && |nd.ports| == 1001
    && (forall j :: 0 <= j < 1001 ==> nd.ports[j] == 19000 + j)
    && (forall x :: 0 <= x < cpus ==> !nd.cpuMask[x])
  }

  /** The nodes of the first `count` workers, as they are at first. */
  function FirstNodes(workers: seq<string>, cpus: nat, taken: seq<nat>, count: nat): (s: seq<Node>)
    requires count <= |workers| && forall i :: 0 <= i < count ==> TakenAt(taken, i) <= cpus
    ensures |s| == count && forall i :: 0 <= i < count ==> s[i] == Untouched(workers[i], cpus, cpus - TakenAt(taken, i))
  {
    if count == 0 then []
    else FirstNodes(workers, cpus, taken, count - 1) +
         [Untouched(workers[count - 1], cpus, cpus - TakenAt(taken, count - 1))]
  }

  lemma FirstAreNew(workers: seq<string>, cpus: nat, taken: seq<nat>)
    requires forall i :: 0 <= i < |workers| ==> TakenAt(taken, i) <= cpus
    ensures forall i :: 0 <= i < |workers| ==>
      AsNew(FirstNodes(workers, cpus, taken, |workers|)[i], workers[i], cpus, cpus - TakenAt(taken, i))
  {
  }

  /** The slots of each worker that nobody else has taken. */
  ghost function Capacities(workers: seq<string>, cpus: nat, taken: seq<nat>): (m: map<string, nat>)
    requires forall i, j :: 0 <= i < j < |workers| ==> workers[i] != workers[j]
    requires forall i :: 0 <= i < |workers| ==> TakenAt(taken, i) <= cpus
    ensures forall i :: 0 <= i < |workers| ==> workers[i] in m && m[workers[i]] == cpus - TakenAt(taken, i)
  {
    map i | 0 <= i < |workers| :: workers[i] := cpus - TakenAt(taken, i)
  }

  lemma NewBooks(workers: seq<string>, cpus: nat, taken: seq<nat>, unit: nat)
    requires unit >= 1 && 2 * cpus <= 1001
    requires forall i, j :: 0 <= i < j < |workers| ==> workers[i] != workers[j]
    requires forall i :: 0 <= i < |workers| ==> TakenAt(taken, i) <= cpus && Whole(cpus - TakenAt(taken, i), unit)
    ensures Books(FirstNodes(workers, cpus, taken, |workers|), [], Limits(unit, cpus, Capacities(workers, cpus, taken)))
  {
    var list := FirstNodes(workers, cpus, taken, |workers|);
    forall i | 0 <= i < |list|
      ensures Conserved(list[i], [], Limits(unit, cpus, Capacities(workers, cpus, taken))) && list[i].ip == workers[i]
    {
      UntouchedOk(workers[i], cpus, cpus - TakenAt(taken, i), unit);
    }
  }

  /** The initial nodes. */
  method NewNodes(workers: seq<string>, cpus: nat, taken: seq<nat>) returns (list: seq<Node>, slots: int)
    requires forall i :: 0 <= i < |workers| ==> TakenAt(taken, i) <= cpus
    ensures list == FirstNodes(workers, cpus, taken, |workers|) && slots == SumSlots(list)
  {
    list, slots := [], 0;
    for i := 0 to |workers|
      invariant list == FirstNodes(workers, cpus, taken, i) && slots == SumSlots(list)
    {
      var nd := Untouched(workers[i], cpus, cpus - TakenAt(taken, i));
      SumMore(list, nd);
      list, slots := list + [nd], slots + nd.slot;
    }
  }

  function AtLeastTwo(totalSlot: int): (slots: nat)
    ensures slots >= 2 && slots >= totalSlot && (slots == 2 || slots == totalSlot)
  {
    if totalSlot < 2 then 2 else totalSlot
  }

  /** An allocation from nodes in any order. */
  method SortAndAllocate(nodes: seq<Node>, total: nat, unit: nat, ghost gs: seq<Grant>, ghost l: Limits)
    returns (after: seq<Node>, cs: seq<Container>, ip: string, port: nat)
    requires Books(nodes, gs, l) && Addressed(nodes, gs) && unit == l.unit && 0 < total <= SumSlots(nodes) && Whole(total, unit)
    ensures Books(after, gs + [Grant(cs, ip, port)], l) && SumSlots(after) == SumSlots(nodes) - total
    ensures Addressed(after, gs + [Grant(cs, ip, port)]) && SameIps(nodes, after) && KnownIps(after, cs)
    ensures |cs| * unit == total && LargestFirst(nodes, cs) && GrantOk(Grant(cs, ip, port), unit)
    ensures forall c :: c in cs ==> |c.cpuSet| >= unit
  {
    var s := SortBySlot(nodes);
    SortedBooks(nodes, s, gs, l);
    after, cs, ip, port := Allocate(s, total, unit, gs, l);
    LargestPermuted(s, nodes, cs);
    ListsFit(Grant(cs, ip, port), unit);
    TimesIsProduct(|cs|, unit);
    GrantAddressed(nodes, s, after, gs, Grant(cs, ip, port));
  }

  class Cluster {
    var nodes: seq<Node>
    var currentSlot: int
    /** The grants given out and not yet returned. */
    ghost var held: seq<Grant>
    ghost const limits: Limits

    /** `currentSlot` is the sum of the node slots, on every node free plus held is constant, and everything
        held is on one of the nodes. */
    ghost predicate Valid()
      reads this
    {
      Books(nodes, held, limits) && currentSlot == SumSlots(nodes) && Addressed(nodes, held)
    }

    /** Initially every node has all its ports and CPUs, and the slots nobody else has taken. */
    constructor (workers: seq<string>, maxSlotPerNode: nat, taken: seq<nat>, ghost unit: nat)
      requires unit >= 1 && 2 * maxSlotPerNode <= 1001
      requires forall i, j :: 0 <= i < j < |workers| ==> workers[i] != workers[j]
      requires taken == [] || |taken| >= |workers|
      requires forall i :: 0 <= i < |workers| ==>
        TakenAt(taken, i) <= maxSlotPerNode && Whole(maxSlotPerNode - TakenAt(taken, i), unit)
      ensures Valid() && held == [] && limits.unit == unit
      ensures nodes == FirstNodes(workers, maxSlotPerNode, taken, |workers|)
      ensures |nodes| == |workers|
      ensures forall i :: 0 <= i < |nodes| ==> AsNew(nodes[i], workers[i], maxSlotPerNode, maxSlotPerNode - TakenAt(taken, i))
    {
      NewBooks(workers, maxSlotPerNode, taken, unit);
      FirstAreNew(workers, maxSlotPerNode, taken);
      var list, slots := NewNodes(workers, maxSlotPerNode, taken);
      nodes, currentSlot, held := list, slots, [];
      limits := Limits(unit, maxSlotPerNode, Capacities(workers, maxSlotPerNode, taken));
    }

    /** Any request, counted as at least two slots; it fails exactly when the slots do not suffice. The
        nodes with the most slots come first. Every container comes with a nonempty CPU list, of at least `slotPerContainer`. */
    method Get(slotPerContainer: nat, totalSlot: int) returns (ok: bool, cs: seq<Container>, coordinatorIp: string, coordinatorPort: nat)
      requires Valid() && slotPerContainer == limits.unit && Whole(AtLeastTwo(totalSlot), slotPerContainer)
      modifies this`nodes, this`currentSlot, this`held
      ensures Valid()
      ensures ok <==> old(currentSlot) >= AtLeastTwo(totalSlot)
      ensures !ok ==> nodes == old(nodes) && currentSlot == old(currentSlot) && held == old(held)
      ensures ok ==> held == old(held) + [Grant(cs, coordinatorIp, coordinatorPort)]
      ensures ok ==> currentSlot == old(currentSlot) - AtLeastTwo(totalSlot)
      ensures ok ==> |cs| * slotPerContainer == AtLeastTwo(totalSlot) && LargestFirst(old(nodes), cs)
      ensures ok ==> forall c :: c in cs ==> |c.cpuSet| >= slotPerContainer
      ensures ok ==> GrantOk(Grant(cs, coordinatorIp, coordinatorPort), slotPerContainer) && KnownIps(nodes, cs)
      ensures SameIps(old(nodes), nodes)
    {
      var total := AtLeastTwo(totalSlot);
      ok, cs, coordinatorIp, coordinatorPort := false, [], "", 0;
      if currentSlot < total { return; }
      ok := true;
      nodes, cs, coordinatorIp, coordinatorPort := SortAndAllocate(nodes, total, slotPerContainer, held, limits);
      currentSlot := currentSlot - total;
      held := held + [Grant(cs, coordinatorIp, coordinatorPort)];
    }

    /** Giving a live grant back, its containers in any order: every container's slots are free again. */
    method Put(slotPerContainer: nat, cs: seq<Container>, coordinatorIp: string, coordinatorPort: nat, ghost k: nat)
      requires Valid() && slotPerContainer == limits.unit && k < |held|
      requires multiset(cs) == multiset(held[k].containers)
      requires coordinatorIp == held[k].coordinatorIp && coordinatorPort == held[k].coordinatorPort
      modifies this`nodes, this`currentSlot, this`held
      ensures Valid() && held == Without(old(held), k) && SameIps(old(nodes), nodes)
      ensures currentSlot == old(currentSlot) + |old(held)[k].containers| * slotPerContainer
    {
      ghost var before, rest := nodes, Without(held, k);
      assert held[k] in held;
      ReorderedKnown(nodes, held[k].containers, cs);
      SlotsAll(nodes, cs, slotPerContainer);
      nodes, currentSlot := ReturnAll(nodes, currentSlot, slotPerContainer, cs, coordinatorIp, coordinatorPort, held, k, limits);
      AddressedWithout(before, nodes, held, k);
      held := rest;
    }
  }
}
