/** What the cluster allocator hands out, and how it adds up: slots, ports and CPUs of one worker node, free or
    held by live grants. */
module ClusterAccounts {
  import opened Sequences

  datatype Node = Node(ip: string, slot: int, ports: seq<nat>, cpuMask: seq<bool>)

  /** A container's address and the CPUs it may run on; containers of one grant on one node share their CPUs. */
  datatype Container = Container(ip: string, port: nat, cpuSet: seq<nat>)

  datatype Grant = Grant(containers: seq<Container>, coordinatorIp: string, coordinatorPort: nat)

  /** What is held on one node. */
  datatype Holding = Holding(slots: nat, ports: multiset<nat>, cpus: multiset<nat>)

  const NONE := Holding(0, multiset{}, multiset{})

  function Plus(a: Holding, b: Holding): Holding {
    Holding(a.slots + b.slots, a.ports + b.ports, a.cpus + b.cpus)
  }

  // ---- Multiples ----

  /** `count` containers of `unit` slots each. */
  function Times(count: nat, unit: nat): nat {
    if count == 0 then 0 else Times(count - 1, unit) + unit
  }

  lemma {:induction false} TimesIsProduct(count: nat, unit: nat)
    ensures Times(count, unit) == count * unit
  {
    if count > 0 { TimesIsProduct(count - 1, unit); }
  }

  lemma {:induction false} CountTimes(count: nat, unit: nat)
    requires unit >= 1
    ensures count <= Times(count, unit)
  {
    if count > 0 { CountTimes(count - 1, unit); }
  }

  lemma {:induction false} TimesPlus(a: nat, b: nat, unit: nat)
    ensures Times(a + b, unit) == Times(a, unit) + Times(b, unit)
  {
    if b > 0 { TimesPlus(a, b - 1, unit); }
  }

  /** `x` is a multiple of `unit`. */
  ghost predicate Whole(x: nat, unit: nat) {
    exists count: nat :: x == Times(count, unit)
  }

  lemma WholeTimes(count: nat, unit: nat)
    ensures Whole(Times(count, unit), unit)
  {
  }

  lemma WholePlus(x: nat, count: nat, unit: nat)
    requires Whole(x, unit)
    ensures Whole(x + Times(count, unit), unit)
  {
    var q: nat :| x == Times(q, unit);
    TimesPlus(q, count, unit);
  }

  lemma MoreTimes(a: nat, b: nat, unit: nat)
    requires a <= b
    ensures Times(b, unit) == Times(a, unit) + Times(b - a, unit)
    ensures a < b ==> Times(a, unit) + unit <= Times(b, unit)
  {
    TimesPlus(a, b - a, unit);
  }

  /** Multiples below a multiple leave room for one more. */
  lemma WholeStep(x: nat, bound: nat, unit: nat)
    requires Whole(x, unit) && Whole(bound, unit) && x < bound
    ensures x + unit <= bound && Whole(x + unit, unit)
  {
    var a: nat :| x == Times(a, unit);
    var b: nat :| bound == Times(b, unit);
    if b <= a { MoreTimes(b, a, unit); } else { MoreTimes(a, b, unit); }
    assert x + unit == Times(a + 1, unit);
  }

  lemma WholeMinus(x: nat, y: nat, unit: nat)
    requires Whole(x, unit) && Whole(y, unit) && y <= x
    ensures Whole(x - y, unit)
  {
    var a: nat :| x == Times(a, unit);
    var b: nat :| y == Times(b, unit);
    if b <= a {
      MoreTimes(b, a, unit);
    } else {
      MoreTimes(a, b, unit);
      assert x - y == Times(0, unit);
    }
  }

  // ---- CPUs ----

  /** The CPUs a mask leaves free. */
  ghost function Free(mask: seq<bool>): multiset<nat> {
    if mask == [] then multiset{}
    else Free(mask[..|mask| - 1]) + (if mask[|mask| - 1] then multiset{} else multiset{|mask| - 1})
  }

  lemma {:induction false} FreeCount(mask: seq<bool>, i: nat)
    ensures Free(mask)[i] == if i < |mask| && !mask[i] then 1 else 0
  {
    if mask != [] { FreeCount(mask[..|mask| - 1], i); }
  }

  /** Marking a free CPU takes exactly it out of the free ones. */
  lemma MarkCpu(mask: seq<bool>, i: nat)
    requires i < |mask| && !mask[i]
    ensures Free(mask) == Free(mask[i := true]) + multiset{i}
  {
    forall x: nat
      ensures Free(mask)[x] == (Free(mask[i := true]) + multiset{i})[x]
    {
      FreeCount(mask, x);
      FreeCount(mask[i := true], x);
    }
  }

  lemma SomeFree(mask: seq<bool>, from: nat)
    requires |Free(mask)| > 0 && forall i :: 0 <= i < from && i < |mask| ==> mask[i]
    ensures exists i :: from <= i < |mask| && !mask[i]
  {
    var x :| x in Free(mask);
    FreeCount(mask, x);
  }

  // ---- What a list of containers holds at a node ----

  ghost function CountAt(cs: seq<Container>, ip: string): nat {
    if cs == [] then 0 else CountAt(cs[..|cs| - 1], ip) + (if cs[|cs| - 1].ip == ip then 1 else 0)
  }

  ghost function PortsAt(cs: seq<Container>, ip: string): multiset<nat> {
    if cs == [] then multiset{}
    else PortsAt(cs[..|cs| - 1], ip) + (if cs[|cs| - 1].ip == ip then multiset{cs[|cs| - 1].port} else multiset{})
  }

  /** The CPU list kept for a node: the last container's on it. */
  function CpuListAt(cs: seq<Container>, ip: string): seq<nat> {
    if cs == [] then []
    else if cs[|cs| - 1].ip == ip then cs[|cs| - 1].cpuSet
    else CpuListAt(cs[..|cs| - 1], ip)
  }

  ghost predicate SharedCpus(cs: seq<Container>) {
    forall c, d :: c in cs && d in cs && c.ip == d.ip ==> c.cpuSet == d.cpuSet
  }

  lemma {:induction false} PortsSize(cs: seq<Container>, ip: string)
    ensures |PortsAt(cs, ip)| == CountAt(cs, ip)
  {
    if cs != [] { PortsSize(cs[..|cs| - 1], ip); }
  }

  lemma {:induction false} CpuListOf(cs: seq<Container>, c: Container)
    requires c in cs && SharedCpus(cs)
    ensures CpuListAt(cs, c.ip) == c.cpuSet
  {
    var front, last := cs[..|cs| - 1], cs[|cs| - 1];
    assert last in cs;
    if last.ip != c.ip {
      assert c in front && forall d :: d in front ==> d in cs;
      CpuListOf(front, c);
    }
  }

  lemma {:induction false} NoneThere(cs: seq<Container>, ip: string)
    requires forall c :: c in cs ==> c.ip != ip
    ensures CountAt(cs, ip) == 0 && PortsAt(cs, ip) == multiset{} && CpuListAt(cs, ip) == []
  {
    if cs != [] {
      assert cs[|cs| - 1] in cs && forall c :: c in cs[..|cs| - 1] ==> c in cs;
      NoneThere(cs[..|cs| - 1], ip);
    }
  }

  lemma {:induction false} SomeThere(cs: seq<Container>, ip: string) returns (c: Container)
    requires CountAt(cs, ip) > 0
    ensures c in cs && c.ip == ip
  {
    if cs[|cs| - 1].ip == ip {
      c := cs[|cs| - 1];
    } else {
      c := SomeThere(cs[..|cs| - 1], ip);
    }
  }

  /** Taking one container out of a list. */
  lemma {:induction false} CountWithout(cs: seq<Container>, k: nat, ip: string)
    requires k < |cs|
    ensures CountAt(cs, ip) == CountAt(Without(cs, k), ip) + (if cs[k].ip == ip then 1 else 0)
  {
    WithoutLast(cs, k);
    if k < |cs| - 1 {
      var last := |cs| - 1;
      CountWithout(cs[..last], k, ip);
      assert cs[..last][k] == cs[k];
      var here := if cs[last].ip == ip then 1 else 0;
      assert CountAt(cs, ip) == CountAt(cs[..last], ip) + here;
      assert CountAt(Without(cs, k), ip) == CountAt(Without(cs[..last], k), ip) + here;
    }
  }

  ghost function PortAt(c: Container, ip: string): multiset<nat> {
    if c.ip == ip then multiset{c.port} else multiset{}
  }

  lemma Swap(a: multiset<nat>, b: multiset<nat>, c: multiset<nat>)
    ensures (a + b) + c == (a + c) + b
  {
  }

  lemma {:induction false} PortsWithout(cs: seq<Container>, k: nat, ip: string)
    requires k < |cs|
    ensures PortsAt(cs, ip) == PortsAt(Without(cs, k), ip) + PortAt(cs[k], ip)
  {
    WithoutLast(cs, k);
    if k < |cs| - 1 {
      var last := |cs| - 1;
      PortsWithout(cs[..last], k, ip);
      var a, b, c := PortsAt(Without(cs[..last], k), ip), PortAt(cs[k], ip), PortAt(cs[last], ip);
      assert PortsAt(cs[..last], ip) == a + b;
      assert PortsAt(Without(cs, k), ip) == a + c;
      Swap(a, b, c);
    }
  }

  lemma LastIn(cs: seq<Container>, ds: seq<Container>) returns (k: nat)
    requires cs != [] && multiset(cs) == multiset(ds)
    ensures k < |ds| && ds[k] == cs[|cs| - 1] && multiset(cs[..|cs| - 1]) == multiset(Without(ds, k))
  {
    var last, front := cs[|cs| - 1], cs[..|cs| - 1];
    assert cs == front + [last];
    assert last in multiset(ds);
    k :| 0 <= k < |ds| && ds[k] == last;
    WithoutMultiset(ds, k);
  }

  /** What a list holds at a node does not depend on its order. */
  lemma {:induction false} OrderFree(cs: seq<Container>, ds: seq<Container>, ip: string)
    requires multiset(cs) == multiset(ds)
    ensures CountAt(cs, ip) == CountAt(ds, ip) && PortsAt(cs, ip) == PortsAt(ds, ip)
    decreases |cs|
  {
    if cs == [] {
      assert |multiset(ds)| == 0;
    } else {
      var k := LastIn(cs, ds);
      OrderFree(cs[..|cs| - 1], Without(ds, k), ip);
      CountWithout(ds, k, ip);
      PortsWithout(ds, k, ip);
    }
  }

  lemma CpusOrderFree(cs: seq<Container>, ds: seq<Container>, ip: string)
    requires multiset(cs) == multiset(ds) && SharedCpus(cs)
    ensures SharedCpus(ds) && CpuListAt(cs, ip) == CpuListAt(ds, ip)
  {
    assert forall c :: c in cs <==> c in multiset(cs);
    assert forall c :: c in ds <==> c in multiset(ds);
    if c :| c in cs && c.ip == ip {
      CpuListOf(cs, c);
      CpuListOf(ds, c);
    } else {
      NoneThere(cs, ip);
      NoneThere(ds, ip);
    }
  }

  // ---- What grants hold at a node ----

  ghost function HeldBy(g: Grant, unit: nat, ip: string): Holding {
    Holding(Times(CountAt(g.containers, ip), unit),
            PortsAt(g.containers, ip) + (if g.coordinatorIp == ip then multiset{g.coordinatorPort} else multiset{}),
            multiset(CpuListAt(g.containers, ip)))
  }

  ghost function Held(gs: seq<Grant>, unit: nat, ip: string): Holding {
    if gs == [] then NONE else Plus(Held(gs[..|gs| - 1], unit, ip), HeldBy(gs[|gs| - 1], unit, ip))
  }

  /** Every container has `unit` CPUs' worth of the node's list, and the coordinator sits beside a container. */
  ghost predicate GrantOk(g: Grant, unit: nat) {
    && SharedCpus(g.containers)
    && CountAt(g.containers, g.coordinatorIp) > 0
    && forall ip :: |CpuListAt(g.containers, ip)| == Times(CountAt(g.containers, ip), unit)
  }

  lemma PlusSwap(a: Holding, b: Holding, c: Holding)
    ensures Plus(Plus(a, b), c) == Plus(Plus(a, c), b)
  {
    Swap(a.ports, b.ports, c.ports);
    Swap(a.cpus, b.cpus, c.cpus);
  }

  lemma HeldWith(gs: seq<Grant>, unit: nat, g: Grant, ip: string)
    ensures Held(gs + [g], unit, ip) == Plus(Held(gs, unit, ip), HeldBy(g, unit, ip))
  {
    assert (gs + [g])[..|gs|] == gs;
  }

  lemma PlusChain(total: Holding, front: Holding, rest: Holding, a: Holding, b: Holding, c: Holding)
    requires total == Plus(front, c) && front == Plus(a, b) && rest == Plus(a, c)
    ensures total == Plus(rest, b)
  {
    PlusSwap(a, b, c);
  }

  lemma {:induction false} HeldWithout(gs: seq<Grant>, unit: nat, k: nat, ip: string)
    requires k < |gs|
    ensures Held(gs, unit, ip) == Plus(Held(Without(gs, k), unit, ip), HeldBy(gs[k], unit, ip))
  {
    var front, last := gs[..|gs| - 1], gs[|gs| - 1];
    assert gs == front + [last];
    HeldWith(front, unit, last, ip);
    WithoutLast(gs, k);
    if k < |front| {
      var less := Without(front, k);
      assert Without(gs, k) == less + [last];
      HeldWith(less, unit, last, ip);
      HeldWithout(front, unit, k, ip);
      PlusChain(Held(gs, unit, ip), Held(front, unit, ip), Held(Without(gs, k), unit, ip),
                Held(less, unit, ip), HeldBy(gs[k], unit, ip), HeldBy(last, unit, ip));
    }
  }

  /** One grant: as many CPUs as slots, and at most two ports per slot. */
  lemma HoldingFits(g: Grant, unit: nat, ip: string)
    requires GrantOk(g, unit) && unit >= 1
    ensures |HeldBy(g, unit, ip).cpus| == HeldBy(g, unit, ip).slots
    ensures |HeldBy(g, unit, ip).ports| <= 2 * HeldBy(g, unit, ip).slots
  {
    PortsSize(g.containers, ip);
    CountTimes(CountAt(g.containers, ip), unit);
  }

  lemma {:induction false} HeldFits(gs: seq<Grant>, unit: nat, ip: string)
    requires unit >= 1 && forall g :: g in gs ==> GrantOk(g, unit)
    ensures |Held(gs, unit, ip).cpus| == Held(gs, unit, ip).slots
    ensures |Held(gs, unit, ip).ports| <= 2 * Held(gs, unit, ip).slots
  {
    if gs != [] {
      assert gs[|gs| - 1] in gs && forall g :: g in gs[..|gs| - 1] ==> g in gs;
      HeldFits(gs[..|gs| - 1], unit, ip);
      HoldingFits(gs[|gs| - 1], unit, ip);
    }
  }

  // ---- The invariant ----

  const LOW_PORT_NUMBER := 19000

  const HIGH_PORT_NUMBER := 20000

  function PortPool(): (s: seq<nat>)
    ensures |s| == 1001
    ensures forall i :: 0 <= i < |s| ==> s[i] == 19000 + i
  {
    seq(HIGH_PORT_NUMBER - LOW_PORT_NUMBER + 1, i requires 0 <= i => LOW_PORT_NUMBER + i)
  }

  function NoneTaken(cpus: nat): seq<bool> { seq(cpus, _ => false) }

  /** Free plus held is everything the node has: its slots, its ports, its CPUs. */
  ghost predicate NodeOk(nd: Node, held: Holding, unit: nat, capacity: nat, cpus: nat) {
    && unit >= 1
    && 0 <= nd.slot && Whole(nd.slot, unit)
    && nd.slot + held.slots == capacity <= cpus
    && |nd.cpuMask| == cpus
    && multiset(nd.ports) + held.ports == multiset(PortPool())
    && Free(nd.cpuMask) + held.cpus == Free(NoneTaken(cpus))
  }

  lemma {:induction false} AllFree(cpus: nat)
    ensures |Free(NoneTaken(cpus))| == cpus
  {
    if cpus > 0 {
      assert NoneTaken(cpus)[..cpus - 1] == NoneTaken(cpus - 1);
      AllFree(cpus - 1);
    }
  }

  /** A node never runs out of CPUs or ports before it runs out of slots. */
  lemma EnoughFree(nd: Node, held: Holding, unit: nat, capacity: nat, cpus: nat)
    requires NodeOk(nd, held, unit, capacity, cpus) && 2 * cpus <= 1001
    requires |held.cpus| == held.slots && |held.ports| <= 2 * held.slots
    ensures |Free(nd.cpuMask)| >= nd.slot
    ensures |nd.ports| >= 2 * nd.slot
  {
    AllFree(cpus);
    assert |multiset(nd.ports)| == |nd.ports|;
    assert |Free(nd.cpuMask) + held.cpus| == |Free(nd.cpuMask)| + |held.cpus|;
    assert |multiset(nd.ports) + held.ports| == |multiset(nd.ports)| + |held.ports|;
    assert |multiset(PortPool())| == |PortPool()|;
  }

  // ---- Live grants are disjoint ----

  lemma {:induction false} PoolCount(s: seq<nat>, x: nat)
    requires forall i, j :: 0 <= i < j < |s| ==> s[i] != s[j]
    ensures multiset(s)[x] <= 1
  {
    if s != [] {
      var front := s[..|s| - 1];
      PoolCount(front, x);
      assert s == front + [s[|s| - 1]];
      if s[|s| - 1] == x { assert x !in front; }
    }
  }

  lemma {:induction false} HeldIncludes(gs: seq<Grant>, unit: nat, ip: string, i: nat, j: nat, x: nat)
    requires i < j < |gs|
    ensures HeldBy(gs[i], unit, ip).ports[x] + HeldBy(gs[j], unit, ip).ports[x] <= Held(gs, unit, ip).ports[x]
    ensures HeldBy(gs[i], unit, ip).cpus[x] + HeldBy(gs[j], unit, ip).cpus[x] <= Held(gs, unit, ip).cpus[x]
  {
    HeldWithout(gs, unit, j, ip);
    assert Without(gs, j)[i] == gs[i];
    HeldWithout(Without(gs, j), unit, i, ip);
  }

  /** No port and no CPU of a node is both free and held, or held twice. */
  lemma NothingTwice(nd: Node, gs: seq<Grant>, unit: nat, capacity: nat, cpus: nat, x: nat)
    requires NodeOk(nd, Held(gs, unit, nd.ip), unit, capacity, cpus)
    ensures multiset(nd.ports)[x] + Held(gs, unit, nd.ip).ports[x] <= 1
    ensures Free(nd.cpuMask)[x] + Held(gs, unit, nd.ip).cpus[x] <= 1
  {
    PoolCount(PortPool(), x);
    FreeCount(NoneTaken(cpus), x);
    assert (multiset(nd.ports) + Held(gs, unit, nd.ip).ports)[x] <= 1;
    assert (Free(nd.cpuMask) + Held(gs, unit, nd.ip).cpus)[x] <= 1;
  }

  /** Two live grants never share a port or a CPU of a node, and no port is held twice within a grant. */
  lemma GrantsDisjoint(nd: Node, gs: seq<Grant>, unit: nat, capacity: nat, cpus: nat, i: nat, j: nat, x: nat)
    requires i < j < |gs| && NodeOk(nd, Held(gs, unit, nd.ip), unit, capacity, cpus)
    ensures HeldBy(gs[i], unit, nd.ip).ports[x] + HeldBy(gs[j], unit, nd.ip).ports[x] <= 1
    ensures HeldBy(gs[i], unit, nd.ip).cpus[x] + HeldBy(gs[j], unit, nd.ip).cpus[x] <= 1
  {
    HeldIncludes(gs, unit, nd.ip, i, j, x);
    NothingTwice(nd, gs, unit, capacity, cpus, x);
  }
}
