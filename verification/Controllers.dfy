/** The controller: any number of resource managers, each with its pool and its requests, that take the slots, ports
    and CPUs of their container sets from one shared cluster and give them back. */
module Controllers {
  import opened Sequences
  import opened ClusterAccounts
  import opened Clusters
  import opened ContainerPools
  import opened ResourceRuns

  /** A container set, by the number of its manager and its id. */
  type Key = (nat, nat)

  type Resource = ClusterAccounts.Grant

  /** Something that happens at manager `m`. `order` is the order in which a set's containers are listed when it
      is given back, which the program takes from a map. The answer of the cluster in `act` is ignored. */
  datatype Event = Event(m: nat, act: Action, order: seq<Container>)

  // ---- Which sets have resources ----

  /** Created and not yet given back. */
  ghost predicate Live(s: System, id: nat) {
    id in s.pool.sets && id !in s.returned
  }

  /** The request comes to the point where a new set is asked of the cluster. */
  predicate Asks(s: System, limit: int, a: Action)
    requires Typed(s)
  {
    a.Ask? && s.pool.free == [] && !Queues(s, limit)
  }

  function Answered(a: Action, room: bool): Action {
    if a.Ask? then a.(room := room) else a
  }

  lemma NewIsNotReturned(s: System, limit: int, id: nat)
    requires Inv(s, limit) && id !in s.pool.sets
    ensures id !in s.returned
  {
    assert Places(s, id) == 0;
    assert multiset(s.returned)[id] == 0;
  }

  lemma RemovedIsLive(s: System, limit: int, id: nat)
    requires Inv(s, limit) && id in s.removed
    ensures Live(s, id)
  {
    assert Places(s, id) == if id in s.pool.sets then 1 else 0;
    assert multiset(s.returned)[id] == 0;
  }

  lemma AvailableIsLive(s: System, limit: int, id: nat)
    requires Inv(s, limit) && id in s.pool.available
    ensures Live(s, id)
  {
    assert Places(s, id) == if id in s.pool.sets then 1 else 0;
    assert multiset(s.returned)[id] == 0;
  }

  /** A step makes at most one set live or lets one go. */
  lemma LiveStep(s: System, limit: int, a: Action, id: nat)
    requires Inv(s, limit) && Enabled(s, limit, a)
    ensures Live(Apply(s, limit, a), id) <==>
      if Asks(s, limit, a) && a.room && id == a.newId then true
      else if a.Return? && id == a.id then false
      else Live(s, id)
  {
    if a.Ask? && id == a.newId { NewIsNotReturned(s, limit, id); }
    if a.Sweep? { SweptTyped(s, a.cur); }
  }

  // ---- The controller's list of what each set holds ----

  ghost predicate Unique(keys: seq<Key>) {
    forall i, j :: 0 <= i < j < |keys| ==> keys[i] != keys[j]
  }

  /** `held[i]` is what the set `keys[i]` holds, and no other set holds anything. */
  ghost predicate Booked(resources: map<Key, Resource>, keys: seq<Key>, held: seq<Resource>) {
    && |keys| == |held| && Unique(keys)
    && (forall i :: 0 <= i < |keys| ==> keys[i] in resources && resources[keys[i]] == held[i])
    && (forall k :: k in resources ==> k in keys)
  }

  lemma BookedMore(resources: map<Key, Resource>, keys: seq<Key>, held: seq<Resource>, k: Key, g: Resource)
    requires Booked(resources, keys, held) && k !in resources
    ensures Booked(resources[k := g], keys + [k], held + [g])
  {
  }

  lemma WithoutAt<T>(s: seq<T>, i: nat, j: nat)
    requires i < |s| && j < |s| - 1
    ensures Without(s, i)[j] == s[if j < i then j else j + 1]
  {
  }

  lemma BookedLess(resources: map<Key, Resource>, keys: seq<Key>, held: seq<Resource>, i: nat)
    requires Booked(resources, keys, held) && i < |keys|
    ensures Booked(resources - {keys[i]}, Without(keys, i), Without(held, i))
  {
    var less, rest := resources - {keys[i]}, Without(keys, i);
    forall j | 0 <= j < |rest|
      ensures rest[j] in less && less[rest[j]] == Without(held, i)[j]
    {
      WithoutAt(keys, i, j);
      WithoutAt(held, i, j);
    }
    forall j, k | 0 <= j < k < |rest|
      ensures rest[j] != rest[k]
    {
      WithoutAt(keys, i, j);
      WithoutAt(keys, i, k);
    }
    forall k | k in less
      ensures k in rest
    {
      var j :| 0 <= j < |keys| && keys[j] == k;
      if j < i { WithoutAt(keys, i, j); } else { WithoutAt(keys, i, j - 1); }
    }
  }

  /** Exactly the live sets hold resources. */
  ghost predicate Matches(managers: seq<System>, resources: map<Key, Resource>) {
    forall m: nat, id: nat :: (m, id) in resources <==> m < |managers| && Live(managers[m], id)
  }

  ghost predicate Good(managers: seq<System>, limit: int, m: nat) {
    m < |managers| && Inv(managers[m], limit)
  }

  /** Every manager keeps the invariant of its pool. */
  ghost predicate AllGood(managers: seq<System>, limit: int) {
    forall m: nat :: m < |managers| ==> Good(managers, limit, m)
  }

  /** `a` can happen at manager `m`. */
  predicate Possible(managers: seq<System>, limit: int, m: nat, a: Action)
    requires AllGood(managers, limit)
  {
    m < |managers| && (assert Good(managers, limit, m); Enabled(managers[m], limit, a))
  }

  /** It is a request that comes to the point where a new set is asked of the cluster. */
  predicate Allocates(managers: seq<System>, limit: int, m: nat, a: Action)
    requires AllGood(managers, limit) && Possible(managers, limit, m, a)
  {
    assert Good(managers, limit, m);
    Asks(managers[m], limit, a)
  }

  /** The managers after `a` at manager `m`, the cluster having answered `room` if it was asked. */
  function Stepped(managers: seq<System>, limit: int, m: nat, a: Action, room: bool): seq<System>
    requires AllGood(managers, limit) && Possible(managers, limit, m, a)
  {
    assert Good(managers, limit, m);
    managers[m := Apply(managers[m], limit, Answered(a, room))]
  }

  lemma SteppedGood(managers: seq<System>, limit: int, m: nat, a: Action, room: bool)
    requires AllGood(managers, limit) && Possible(managers, limit, m, a)
    ensures AllGood(Stepped(managers, limit, m, a, room), limit)
  {
    var after := Stepped(managers, limit, m, a, room);
    forall m': nat | m' < |after|
      ensures Good(after, limit, m')
    {
      assert Good(managers, limit, m');
      if m' == m { StepInv(managers[m], limit, Answered(a, room)); }
    }
  }

  /** The step of one manager and what it means for the resources. */
  lemma MatchesStep(managers: seq<System>, limit: int, m: nat, a: Action, room: bool,
                    resources: map<Key, Resource>, g: Resource)
    requires AllGood(managers, limit) && Matches(managers, resources) && Possible(managers, limit, m, a)
    ensures Matches(Stepped(managers, limit, m, a, room),
                    if Allocates(managers, limit, m, a) && room then resources[(m, a.newId) := g]
                    else if a.Return? then resources - {(m, a.id)}
                    else resources)
  {
    var after := Stepped(managers, limit, m, a, room);
    var now := if Allocates(managers, limit, m, a) && room then resources[(m, a.newId) := g]
               else if a.Return? then resources - {(m, a.id)} else resources;
    forall m': nat, id: nat
      ensures (m', id) in now <==> m' < |after| && Live(after[m'], id)
    {
      assert (m', id) in resources <==> m' < |managers| && Live(managers[m'], id);
      assert Good(managers, limit, m);
      if m' == m { LiveStep(managers[m], limit, Answered(a, room), id); }
    }
  }

  // ---- What every event keeps ----

  /** The managers, what they have for their sets, and what the cluster has handed out to which set. */
  datatype Ledger = Ledger(managers: seq<System>, resources: map<Key, Resource>, keys: seq<Key>, held: seq<Resource>)

  ghost predicate Consistent(w: Ledger, limit: int) {
    match w
    case Ledger(managers, resources, keys, held) =>
      AllGood(managers, limit) && Matches(managers, resources) && Booked(resources, keys, held)
  }

  lemma NewSetIsNew(managers: seq<System>, limit: int, m: nat, a: Action, resources: map<Key, Resource>,
                    keys: seq<Key>, held: seq<Resource>)
    requires Consistent(Ledger(managers, resources, keys, held), limit) && Possible(managers, limit, m, a)
    requires Allocates(managers, limit, m, a)
    ensures (m, a.newId) !in resources
  {
    assert Good(managers, limit, m);
    assert (m, a.newId) in resources <==> Live(managers[m], a.newId);
  }

  lemma NewSetKeeps(managers: seq<System>, limit: int, m: nat, a: Action, resources: map<Key, Resource>,
                    keys: seq<Key>, held: seq<Resource>, g: Resource)
    requires Consistent(Ledger(managers, resources, keys, held), limit) && Possible(managers, limit, m, a)
    requires Allocates(managers, limit, m, a)
    ensures Consistent(Ledger(Stepped(managers, limit, m, a, true), resources[(m, a.newId) := g],
                              keys + [(m, a.newId)], held + [g]), limit)
  {
    NewSetIsNew(managers, limit, m, a, resources, keys, held);
    SteppedGood(managers, limit, m, a, true);
    MatchesStep(managers, limit, m, a, true, resources, g);
    BookedMore(resources, keys, held, (m, a.newId), g);
  }

  lemma ReturnKeeps(managers: seq<System>, limit: int, m: nat, a: Action, resources: map<Key, Resource>,
                    keys: seq<Key>, held: seq<Resource>, k: nat)
    requires Consistent(Ledger(managers, resources, keys, held), limit) && Possible(managers, limit, m, a)
    requires a.Return? && k < |keys| && keys[k] == (m, a.id)
    ensures Consistent(Ledger(Stepped(managers, limit, m, a, false), resources - {(m, a.id)},
                              Without(keys, k), Without(held, k)), limit)
  {
    SteppedGood(managers, limit, m, a, false);
    MatchesStep(managers, limit, m, a, false, resources, held[k]);
    BookedLess(resources, keys, held, k);
  }

  lemma OthersKeep(managers: seq<System>, limit: int, m: nat, a: Action, resources: map<Key, Resource>,
                   keys: seq<Key>, held: seq<Resource>)
    requires Consistent(Ledger(managers, resources, keys, held), limit) && Possible(managers, limit, m, a) && !a.Return?
    ensures Consistent(Ledger(Stepped(managers, limit, m, a, false), resources, keys, held), limit)
  {
    SteppedGood(managers, limit, m, a, false);
    MatchesStep(managers, limit, m, a, false, resources, Resource.Grant([], "", 0));
  }

  /** A set to be given back is in the cluster's books, with what its manager has for it. */
  lemma ReturnIsHeld(managers: seq<System>, limit: int, m: nat, a: Action, resources: map<Key, Resource>,
                     keys: seq<Key>, held: seq<Resource>) returns (k: nat)
    requires Consistent(Ledger(managers, resources, keys, held), limit) && Possible(managers, limit, m, a)
    requires a.Return?
    ensures (m, a.id) in resources && k < |keys| == |held| && keys[k] == (m, a.id) && held[k] == resources[(m, a.id)]
  {
    assert Good(managers, limit, m);
    RemovedIsLive(managers[m], limit, a.id);
    assert (m, a.id) in resources;
    k :| 0 <= k < |keys| && keys[k] == (m, a.id);
  }

  lemma SomethingHeld(resources: map<Key, Resource>, keys: seq<Key>, held: seq<Resource>)
    requires Booked(resources, keys, held) && held != []
    ensures resources != map[]
  {
    assert keys[0] in resources;
  }

  // ---- Slots ----

  /** The sets that have resources. */
  ghost function LiveSets(s: System): set<nat> {
    set id | id in s.pool.sets && id !in s.returned
  }

  lemma OneMoreLive(s: System, t: System, id: nat)
    requires forall x: nat :: Live(t, x) <==> x == id || Live(s, x)
    ensures LiveSets(t) == LiveSets(s) + {id}
  {
    assert forall x: nat :: x in LiveSets(t) <==> Live(t, x);
    assert forall x: nat :: x in LiveSets(s) <==> Live(s, x);
  }

  lemma OneLessLive(s: System, t: System, id: nat)
    requires forall x: nat :: Live(t, x) <==> x != id && Live(s, x)
    ensures LiveSets(t) == LiveSets(s) - {id}
  {
    assert forall x: nat :: x in LiveSets(t) <==> Live(t, x);
    assert forall x: nat :: x in LiveSets(s) <==> Live(s, x);
  }

  lemma SameLive(s: System, t: System)
    requires forall x: nat :: Live(t, x) <==> Live(s, x)
    ensures LiveSets(t) == LiveSets(s)
  {
    assert forall x: nat :: x in LiveSets(t) <==> Live(t, x);
    assert forall x: nat :: x in LiveSets(s) <==> Live(s, x);
  }

  /** What a step makes of the live sets. */
  ghost predicate LiveSetsMove(s: System, limit: int, a: Action, t: System)
    requires Typed(s)
  {
    if Asks(s, limit, a) && a.room then a.newId !in LiveSets(s) && LiveSets(t) == LiveSets(s) + {a.newId}
    else if a.Return? then a.id in LiveSets(s) && LiveSets(t) == LiveSets(s) - {a.id}
    else LiveSets(t) == LiveSets(s)
  }

  lemma LiveSetsStep(s: System, limit: int, a: Action)
    requires Inv(s, limit) && Enabled(s, limit, a)
    ensures LiveSetsMove(s, limit, a, Apply(s, limit, a))
  {
    var t := Apply(s, limit, a);
    forall x: nat
      ensures Live(t, x) <==>
        if Asks(s, limit, a) && a.room && x == a.newId then true
        else if a.Return? && x == a.id then false
        else Live(s, x)
    {
      LiveStep(s, limit, a, x);
    }
    if Asks(s, limit, a) && a.room {
      OneMoreLive(s, t, a.newId);
    } else if a.Return? {
      RemovedIsLive(s, limit, a.id);
      OneLessLive(s, t, a.id);
    } else {
      SameLive(s, t);
    }
  }

  /** The slots of the sets of the first `k` managers. */
  ghost function SlotsTaken(managers: seq<System>, partitions: seq<int>, k: nat): nat
    requires k <= |managers| == |partitions|
  {
    if k == 0 then 0
    else SlotsTaken(managers, partitions, k - 1) + Times(|LiveSets(managers[k - 1])|, AtLeastTwo(partitions[k - 1]))
  }

  lemma {:induction false} SlotsTakenUpdate(managers: seq<System>, partitions: seq<int>, m: nat, s: System, k: nat)
    requires k <= |managers| == |partitions| && m < |managers|
    ensures SlotsTaken(managers[m := s], partitions, k) == SlotsTaken(managers, partitions, k) +
      if m < k then Times(|LiveSets(s)|, AtLeastTwo(partitions[m])) - Times(|LiveSets(managers[m])|, AtLeastTwo(partitions[m]))
      else 0
  {
    if k > 0 { SlotsTakenUpdate(managers, partitions, m, s, k - 1); }
  }

  lemma {:induction false} NothingTaken(managers: seq<System>, partitions: seq<int>, k: nat)
    requires k <= |managers| == |partitions| && forall m :: 0 <= m < |managers| ==> managers[m] == START
    ensures SlotsTaken(managers, partitions, k) == 0
  {
    if k > 0 {
      NothingTaken(managers, partitions, k - 1);
      assert LiveSets(START) == {};
    }
  }

  lemma OneMoreTime(count: nat, unit: nat)
    ensures Times(count + 1, unit) == Times(count, unit) + unit
  {
  }

  lemma SetMore(a: set<nat>, b: set<nat>, x: nat, unit: nat)
    requires x !in a && b == a + {x}
    ensures Times(|b|, unit) == Times(|a|, unit) + unit
  {
    assert |b| == |a| + 1;
    OneMoreTime(|a|, unit);
  }

  /** The slots that a step takes, when the cluster's answer is `room`. */
  function Price(managers: seq<System>, limit: int, m: nat, a: Action, room: bool, partitions: seq<int>): int
    requires AllGood(managers, limit) && Possible(managers, limit, m, a) && |managers| == |partitions|
  {
    if Allocates(managers, limit, m, a) && room then AtLeastTwo(partitions[m]) as int
    else if a.Return? then -(AtLeastTwo(partitions[m]) as int)
    else 0
  }

  lemma MoveTakes(s: System, limit: int, a: Action, t: System, unit: nat)
    requires Typed(s) && LiveSetsMove(s, limit, a, t)
    ensures Times(|LiveSets(t)|, unit) == Times(|LiveSets(s)|, unit) +
      if Asks(s, limit, a) && a.room then unit as int else if a.Return? then -(unit as int) else 0
  {
    if Asks(s, limit, a) && a.room {
      SetMore(LiveSets(s), LiveSets(t), a.newId, unit);
    } else if a.Return? {
      SetMore(LiveSets(t), LiveSets(s), a.id, unit);
    }
  }

  lemma SteppedTakes(managers: seq<System>, limit: int, m: nat, a: Action, room: bool, partitions: seq<int>)
    requires AllGood(managers, limit) && Possible(managers, limit, m, a) && |managers| == |partitions|
    ensures SlotsTaken(Stepped(managers, limit, m, a, room), partitions, |managers|) ==
      SlotsTaken(managers, partitions, |managers|) + Price(managers, limit, m, a, room, partitions)
  {
    assert Good(managers, limit, m);
    var s, b := managers[m], Answered(a, room);
    LiveSetsStep(s, limit, b);
    MoveTakes(s, limit, b, Apply(s, limit, b), AtLeastTwo(partitions[m]));
    SlotsTakenUpdate(managers, partitions, m, Apply(s, limit, b), |managers|);
  }

  // ---- What a run of events comes to ----

  /** The managers, and the slots that the cluster has left. */
  datatype Standing = Standing(managers: seq<System>, slots: int)

  ghost predicate Sound(w: Standing, limit: int, partitions: seq<int>) {
    AllGood(w.managers, limit) && |w.managers| == |partitions|
  }

  /** The event is a request that needs a new set, and the slots left suffice for one. */
  predicate Granted(w: Standing, limit: int, partitions: seq<int>, e: Event)
    requires Sound(w, limit, partitions)
  {
    && Possible(w.managers, limit, e.m, e.act) && Allocates(w.managers, limit, e.m, e.act)
    && w.slots >= AtLeastTwo(partitions[e.m])
  }

  /** What an event comes to, if it can happen: a set that is granted takes its slots, and one that is given back
      frees them. */
  function Turn(w: Standing, limit: int, partitions: seq<int>, e: Event): Standing
    requires Sound(w, limit, partitions)
  {
    if !Possible(w.managers, limit, e.m, e.act) then w
    else
      var room := Granted(w, limit, partitions, e);
      Standing(Stepped(w.managers, limit, e.m, e.act, room),
               w.slots - Price(w.managers, limit, e.m, e.act, room, partitions))
  }

  /** The slots left and those of the live sets always add up to the same. */
  lemma TurnConserves(w: Standing, limit: int, partitions: seq<int>, e: Event)
    requires Sound(w, limit, partitions)
    ensures Sound(Turn(w, limit, partitions, e), limit, partitions)
    ensures Turn(w, limit, partitions, e).slots + SlotsTaken(Turn(w, limit, partitions, e).managers, partitions, |partitions|) ==
      w.slots + SlotsTaken(w.managers, partitions, |partitions|)
  {
    if Possible(w.managers, limit, e.m, e.act) {
      var room := Granted(w, limit, partitions, e);
      SteppedGood(w.managers, limit, e.m, e.act, room);
      SteppedTakes(w.managers, limit, e.m, e.act, room, partitions);
    }
  }

  ghost function Turns(w: Standing, limit: int, partitions: seq<int>, events: seq<Event>): (r: Standing)
    requires Sound(w, limit, partitions)
    ensures Sound(r, limit, partitions)
    ensures r.slots + SlotsTaken(r.managers, partitions, |partitions|) ==
      w.slots + SlotsTaken(w.managers, partitions, |partitions|)
  {
    if events == [] then w
    else
      var before := Turns(w, limit, partitions, events[..|events| - 1]);
      TurnConserves(before, limit, partitions, events[|events| - 1]);
      Turn(before, limit, partitions, events[|events| - 1])
  }

  /** After any run, a request that needs a new set gets one exactly when the slots of the live sets leave at least two,
      and as many as its manager's sets take; otherwise nothing changes. */
  lemma GrantedExactly(w: Standing, limit: int, partitions: seq<int>, events: seq<Event>, e: Event)
    requires Sound(w, limit, partitions)
    requires Possible(Turns(w, limit, partitions, events).managers, limit, e.m, e.act)
    requires Allocates(Turns(w, limit, partitions, events).managers, limit, e.m, e.act)
    ensures var r := Turns(w, limit, partitions, events);
      var t := Turns(w, limit, partitions, events + [e]);
      var left := w.slots + SlotsTaken(w.managers, partitions, |partitions|) - SlotsTaken(r.managers, partitions, |partitions|);
      if left >= 2 && left >= partitions[e.m]
      then Live(t.managers[e.m], e.act.newId) && !Live(r.managers[e.m], e.act.newId)
      else t == r
  {
    var r := Turns(w, limit, partitions, events);
    assert (events + [e])[..|events|] == events;
    assert Good(r.managers, limit, e.m);
    var a := Answered(e.act, Granted(r, limit, partitions, e));
    LiveSetsStep(r.managers[e.m], limit, a);
    LiveStep(r.managers[e.m], limit, a, e.act.newId);
    if !a.room { assert r.managers[e.m := r.managers[e.m]] == r.managers; }
  }

  // ---- Every set holds the slots its manager asks for ----

  /** What the sets of each manager take, and what a container takes. */
  datatype Prices = Prices(partitions: seq<int>, unit: nat)

  ghost predicate Paid(k: Key, g: Resource, prices: Prices) {
    k.0 < |prices.partitions| && |g.containers| * prices.unit == AtLeastTwo(prices.partitions[k.0])
  }

  ghost predicate AllPaid(keys: seq<Key>, held: seq<Resource>, prices: Prices) {
    match prices
    case Prices(_, _) => |keys| == |held| && forall i :: 0 <= i < |keys| ==> Paid(keys[i], held[i], prices)
  }

  lemma PaidMore(keys: seq<Key>, held: seq<Resource>, prices: Prices, k: Key, g: Resource)
    requires AllPaid(keys, held, prices) && Paid(k, g, prices)
    ensures AllPaid(keys + [k], held + [g], prices)
  {
  }

  lemma PaidLess(keys: seq<Key>, held: seq<Resource>, prices: Prices, i: nat)
    requires AllPaid(keys, held, prices) && i < |keys|
    ensures Paid(keys[i], held[i], prices) && AllPaid(Without(keys, i), Without(held, i), prices)
  {
    forall j | 0 <= j < |keys| - 1
      ensures Paid(Without(keys, i)[j], Without(held, i)[j], prices)
    {
      WithoutAt(keys, i, j);
      WithoutAt(held, i, j);
    }
  }

  // ---- Sets do not share resources ----

  lemma {:induction false} PortMember(cs: seq<Container>, c: Container)
    requires c in cs
    ensures PortsAt(cs, c.ip)[c.port] >= 1
  {
    if cs[|cs| - 1] != c { PortMember(cs[..|cs| - 1], c); }
  }

  /** The addresses a container set listens on. */
  ghost predicate ListensOn(g: Resource, ip: string, port: nat) {
    || (g.coordinatorIp == ip && g.coordinatorPort == port)
    || exists c :: c in g.containers && c.ip == ip && c.port == port
  }

  /** No common address, and no common CPU. */
  ghost predicate Apart(a: Resource, b: Resource) {
    && (forall ip: string, port: nat :: !(ListensOn(a, ip, port) && ListensOn(b, ip, port)))
    && (forall c, d, x :: c in a.containers && d in b.containers && c.ip == d.ip && x in c.cpuSet ==> x !in d.cpuSet)
  }

  lemma ListensHolds(g: Resource, unit: nat, ip: string, port: nat)
    requires ListensOn(g, ip, port)
    ensures HeldBy(g, unit, ip).ports[port] >= 1
  {
    if !(g.coordinatorIp == ip && g.coordinatorPort == port) {
      var c :| c in g.containers && c.ip == ip && c.port == port;
      PortMember(g.containers, c);
    }
  }

  lemma ListensAtNode(nodes: seq<Node>, g: Resource, unit: nat, ip: string, port: nat) returns (i: nat)
    requires GrantOk(g, unit) && KnownIps(nodes, g.containers) && ListensOn(g, ip, port)
    ensures i < |nodes| && nodes[i].ip == ip
  {
    if g.coordinatorIp == ip {
      var c := SomeThere(g.containers, ip);
      assert AtNode(nodes, c.ip);
    } else {
      var c :| c in g.containers && c.ip == ip && c.port == port;
      assert AtNode(nodes, c.ip);
    }
    i :| 0 <= i < |nodes| && nodes[i].ip == ip;
  }

  lemma AddressesDiffer(nodes: seq<Node>, gs: seq<Resource>, l: Limits, i: nat, j: nat, ip: string, port: nat)
    requires Books(nodes, gs, l) && Addressed(nodes, gs) && i < j < |gs|
    ensures !(ListensOn(gs[i], ip, port) && ListensOn(gs[j], ip, port))
  {
    if ListensOn(gs[i], ip, port) && ListensOn(gs[j], ip, port) {
      assert gs[i] in gs && GrantOk(gs[i], l.unit) && KnownIps(nodes, gs[i].containers);
      var k := ListensAtNode(nodes, gs[i], l.unit, ip, port);
      assert Conserved(nodes[k], gs, l);
      ListensHolds(gs[i], l.unit, ip, port);
      ListensHolds(gs[j], l.unit, ip, port);
      GrantsDisjoint(nodes[k], gs, l.unit, l.capacity[ip], l.cpus, i, j, port);
    }
  }

  lemma CpuHolds(g: Resource, unit: nat, c: Container, x: nat)
    requires GrantOk(g, unit) && c in g.containers && x in c.cpuSet
    ensures HeldBy(g, unit, c.ip).cpus[x] >= 1
  {
    CpuListOf(g.containers, c);
    assert x in multiset(c.cpuSet);
  }

  lemma ContainerAtNode(nodes: seq<Node>, gs: seq<Resource>, l: Limits, i: nat, c: Container) returns (k: nat)
    requires Books(nodes, gs, l) && Addressed(nodes, gs) && i < |gs| && c in gs[i].containers
    ensures GrantOk(gs[i], l.unit) && k < |nodes| && nodes[k].ip == c.ip && Conserved(nodes[k], gs, l)
  {
    assert gs[i] in gs && KnownIps(nodes, gs[i].containers);
    assert AtNode(nodes, c.ip);
    k :| 0 <= k < |nodes| && nodes[k].ip == c.ip;
  }

  lemma CpusDiffer(nodes: seq<Node>, gs: seq<Resource>, l: Limits, i: nat, j: nat, c: Container, d: Container, x: nat)
    requires Books(nodes, gs, l) && Addressed(nodes, gs) && i < j < |gs|
    requires c in gs[i].containers && d in gs[j].containers && c.ip == d.ip && x in c.cpuSet
    ensures x !in d.cpuSet
  {
    var k := ContainerAtNode(nodes, gs, l, i, c);
    var k' := ContainerAtNode(nodes, gs, l, j, d);
    CpuHolds(gs[i], l.unit, c, x);
    if x in d.cpuSet {
      CpuHolds(gs[j], l.unit, d, x);
      GrantsDisjoint(nodes[k], gs, l.unit, l.capacity[c.ip], l.cpus, i, j, x);
    }
  }

  lemma GrantsApart(nodes: seq<Node>, gs: seq<Resource>, l: Limits, i: nat, j: nat)
    requires Books(nodes, gs, l) && Addressed(nodes, gs) && i < |gs| && j < |gs| && i != j
    ensures Apart(gs[i], gs[j])
  {
    var a, b := if i < j then i else j, if i < j then j else i;
    forall ip: string, port: nat
      ensures !(ListensOn(gs[i], ip, port) && ListensOn(gs[j], ip, port))
    {
      AddressesDiffer(nodes, gs, l, a, b, ip, port);
    }
    forall c, d, x | c in gs[i].containers && d in gs[j].containers && c.ip == d.ip && x in c.cpuSet
      ensures x !in d.cpuSet
    {
      if x in d.cpuSet {
        if i < j { CpusDiffer(nodes, gs, l, i, j, c, d, x); } else { CpusDiffer(nodes, gs, l, j, i, d, c, x); }
      }
    }
  }

  /** Whatever managers they belong to, two sets with resources share no address and no CPU. */
  lemma SetsApart(nodes: seq<Node>, l: Limits, resources: map<Key, Resource>, keys: seq<Key>, held: seq<Resource>,
                  k: Key, k': Key)
    requires Books(nodes, held, l) && Addressed(nodes, held) && Booked(resources, keys, held)
    requires k in resources && k' in resources && k != k'
    ensures Apart(resources[k], resources[k'])
  {
    var i :| 0 <= i < |keys| && keys[i] == k;
    var j :| 0 <= j < |keys| && keys[j] == k';
    GrantsApart(nodes, held, l, i, j);
  }

  // ---- What a consistent ledger means ----

  lemma PoolsSafe(w: Ledger, limit: int)
    requires Consistent(w, limit)
    ensures forall m: nat :: m < |w.managers| ==> Secure(w.managers[m])
    ensures forall m: nat, id: nat :: m < |w.managers| && id in w.managers[m].pool.available ==> (m, id) in w.resources
  {
    forall m: nat | m < |w.managers|
      ensures Secure(w.managers[m])
      ensures forall id: nat :: id in w.managers[m].pool.available ==> (m, id) in w.resources
    {
      assert Good(w.managers, limit, m);
      InvSecure(w.managers[m], limit);
      forall id: nat | id in w.managers[m].pool.available
        ensures (m, id) in w.resources
      {
        AvailableIsLive(w.managers[m], limit, id);
      }
    }
  }

  lemma AllApart(nodes: seq<Node>, l: Limits, w: Ledger, limit: int)
    requires Books(nodes, w.held, l) && Addressed(nodes, w.held) && Consistent(w, limit)
    ensures forall k, k' :: k in w.resources && k' in w.resources && k != k' ==> Apart(w.resources[k], w.resources[k'])
  {
    forall k, k' | k in w.resources && k' in w.resources && k != k'
      ensures Apart(w.resources[k], w.resources[k'])
    {
      SetsApart(nodes, l, w.resources, w.keys, w.held, k, k');
    }
  }

  ghost predicate Full(nd: Node, l: Limits) {
    nd.ip in l.capacity && NodeOk(nd, NONE, l.unit, l.capacity[nd.ip], l.cpus)
  }

  lemma AllBack(nodes: seq<Node>, l: Limits, w: Ledger, limit: int)
    requires Books(nodes, w.held, l) && Consistent(w, limit) && w.resources == map[]
    ensures forall i :: 0 <= i < |nodes| ==> Full(nodes[i], l)
  {
    if w.held != [] { SomethingHeld(w.resources, w.keys, w.held); }
    forall i | 0 <= i < |nodes|
      ensures Full(nodes[i], l)
    {
      assert Conserved(nodes[i], [], l);
    }
  }

  // ---- The controller ----

  /** The containers of a set in the order in which its map is walked. */
  method Listed(g: Resource, order: seq<Container>) returns (cs: seq<Container>)
    ensures multiset(cs) == multiset(g.containers)
    ensures multiset(order) == multiset(g.containers) ==> cs == order
  {
    if multiset(order) == multiset(g.containers) { cs := order; } else { cs := g.containers; }
  }

  /** What a set holds goes back to the cluster, its containers in any order. */
  method HandIn(cluster: Cluster, slotPerContainer: nat, g: Resource, order: seq<Container>, ghost k: nat)
    requires cluster.Valid() && slotPerContainer == cluster.limits.unit && k < |cluster.held| && cluster.held[k] == g
    modifies cluster
    ensures cluster.Valid() && cluster.held == Without(old(cluster.held), k)
    ensures cluster.currentSlot == old(cluster.currentSlot) + |g.containers| * slotPerContainer
  {
    var cs := Listed(g, order);
    cluster.Put(slotPerContainer, cs, g.coordinatorIp, g.coordinatorPort, k);
  }

  class Controller {
    const cluster: Cluster
    const limit: int
    const slotPerContainer: nat
    /** How many slots a container set of each manager takes. */
    const partitions: seq<int>
    var managers: seq<System>
    /** The containers and coordinator of each set. */
    var resources: map<Key, Resource>
    /** The sets in the order in which the cluster lists what they hold. */
    ghost var keys: seq<Key>
    /** The slots left at first. */
    ghost const total: int

    /** What the managers and the cluster come to. */
    ghost function Now(): Standing
      reads this, cluster
    {
      Standing(managers, cluster.currentSlot)
    }

    ghost function PriceList(): Prices { Prices(partitions, slotPerContainer) }

    ghost predicate Valid()
      reads this, cluster
    {
      && cluster.Valid() && slotPerContainer == cluster.limits.unit && |managers| == |partitions|
      && (forall m :: 0 <= m < |partitions| ==> Whole(AtLeastTwo(partitions[m]), slotPerContainer))
      && Consistent(Ledger(managers, resources, keys, cluster.held), limit)
      && AllPaid(keys, cluster.held, PriceList())
      && cluster.currentSlot + SlotsTaken(managers, partitions, |partitions|) == total
    }

    constructor (cluster: Cluster, limit: int, slotPerContainer: nat, partitions: seq<int>)
      requires cluster.Valid() && cluster.held == [] && slotPerContainer == cluster.limits.unit
      requires forall m :: 0 <= m < |partitions| ==> Whole(AtLeastTwo(partitions[m]), slotPerContainer)
      ensures Valid() && this.cluster == cluster && this.limit == limit && this.partitions == partitions
      ensures managers == seq(|partitions|, _ => START) && resources == map[] && total == cluster.currentSlot
    {
      this.cluster, this.limit, this.slotPerContainer, this.partitions := cluster, limit, slotPerContainer, partitions;
      managers := seq(|partitions|, _ => START);
      resources := map[];
      keys := [];
      total := cluster.currentSlot;
      new;
      NothingTaken(managers, partitions, |partitions|);
    }

    /** The manager's side of an allocation: a new set with what the cluster gave, or a refusal. */
    method Record(m: nat, a: Action, room: bool, g: Resource, ghost held: seq<Resource>)
      requires Consistent(Ledger(managers, resources, keys, held), limit)
      requires Possible(managers, limit, m, a) && Allocates(managers, limit, m, a)
      modifies this`managers, this`resources, this`keys
      ensures Consistent(Ledger(managers, resources, keys, if room then held + [g] else held), limit)
      ensures managers == Stepped(old(managers), limit, m, a, room) && (m, a.newId) !in old(resources)
      ensures resources == if room then old(resources)[(m, a.newId) := g] else old(resources)
      ensures keys == if room then old(keys) + [(m, a.newId)] else old(keys)
    {
      NewSetIsNew(managers, limit, m, a, resources, keys, held);
      if room {
        NewSetKeeps(managers, limit, m, a, resources, keys, held, g);
        resources, keys := resources[(m, a.newId) := g], keys + [(m, a.newId)];
      } else {
        OthersKeep(managers, limit, m, a, resources, keys, held);
      }
      managers := Stepped(managers, limit, m, a, room);
    }

    /** A request that needs a new set: it gets one exactly when the cluster has the slots, which the set then takes. */
    method NewSet(m: nat, a: Action) returns (room: bool)
      requires Valid() && Possible(managers, limit, m, a) && Allocates(managers, limit, m, a)
      modifies this`managers, this`resources, this`keys, cluster
      ensures Valid() && room == (old(cluster.currentSlot) >= AtLeastTwo(partitions[m]))
      ensures managers == Stepped(old(managers), limit, m, a, room)
      ensures cluster.currentSlot == old(cluster.currentSlot) - if room then AtLeastTwo(partitions[m]) else 0
      ensures (m, a.newId) !in old(resources) && (room <==> (m, a.newId) in resources)
      ensures resources == if room then old(resources)[(m, a.newId) := resources[(m, a.newId)]] else old(resources)
    {
      ghost var held := cluster.held;
      var cs, ip, port;
      room, cs, ip, port := cluster.Get(slotPerContainer, partitions[m]);
      if room { PaidMore(keys, held, PriceList(), (m, a.newId), Resource.Grant(cs, ip, port)); }
      SteppedTakes(managers, limit, m, a, room, partitions);
      Record(m, a, room, Resource.Grant(cs, ip, port), held);
    }

    /** The manager's side of `PutResource`: the set is gone, and `k` is where the cluster lists what it held. */
    method Forget(m: nat, a: Action, ghost held: seq<Resource>) returns (g: Resource, ghost k: nat)
      requires Consistent(Ledger(managers, resources, keys, held), limit) && Possible(managers, limit, m, a) && a.Return?
      modifies this`managers, this`resources, this`keys
      ensures k < |held| && held[k] == g && (m, a.id) in old(resources) && g == old(resources)[(m, a.id)]
      ensures k < |old(keys)| && old(keys)[k] == (m, a.id) && keys == Without(old(keys), k)
      ensures Consistent(Ledger(managers, resources, keys, Without(held, k)), limit)
      ensures resources == old(resources) - {(m, a.id)} && managers == Stepped(old(managers), limit, m, a, false)
    {
      k := ReturnIsHeld(managers, limit, m, a, resources, keys, held);
      g := resources[(m, a.id)];
      ReturnKeeps(managers, limit, m, a, resources, keys, held, k);
      managers, resources, keys := Stepped(managers, limit, m, a, false), resources - {(m, a.id)}, Without(keys, k);
    }

    /** `PutResource` of a set that a sweep removed: the cluster still lists what the set holds, so `Put` finds
        exactly that, and has its slots back. */
    method PutResource(m: nat, a: Action, order: seq<Container>)
      requires Valid() && Possible(managers, limit, m, a) && a.Return?
      modifies this`managers, this`resources, this`keys, cluster
      ensures Valid() && (m, a.id) in old(resources) && resources == old(resources) - {(m, a.id)}
      ensures managers == Stepped(old(managers), limit, m, a, false)
      ensures cluster.currentSlot == old(cluster.currentSlot) + AtLeastTwo(partitions[m])
    {
      SteppedTakes(managers, limit, m, a, false, partitions);
      ghost var before := keys;
      var g;
      ghost var k;
      g, k := Forget(m, a, cluster.held);
      PaidLess(before, cluster.held, PriceList(), k);
      HandIn(cluster, slotPerContainer, g, order, k);
    }

    /** Anything else leaves the resources alone. */
    method OwnStep(m: nat, a: Action)
      requires Valid() && Possible(managers, limit, m, a) && !a.Return? && !Allocates(managers, limit, m, a)
      modifies this`managers
      ensures Valid() && managers == Stepped(old(managers), limit, m, a, false)
    {
      SteppedTakes(managers, limit, m, a, false, partitions);
      OthersKeep(managers, limit, m, a, resources, keys, cluster.held);
      managers := Stepped(managers, limit, m, a, false);
    }

    /** One event at one manager, if it can happen: it comes to `Turn`. A set that is granted gains resources, one that
        is given back loses them, and all others keep theirs. */
    method Handle(e: Event) returns (happened: bool)
      requires Valid()
      modifies this`managers, this`resources, this`keys, cluster
      ensures Valid() && happened == old(Possible(managers, limit, e.m, e.act))
      ensures Now() == old(Turn(Now(), limit, partitions, e))
      ensures old(Granted(Now(), limit, partitions, e)) ==>
        && (e.m, e.act.newId) !in old(resources) && (e.m, e.act.newId) in resources
        && resources == old(resources)[(e.m, e.act.newId) := resources[(e.m, e.act.newId)]]
      ensures happened && e.act.Return? ==> (e.m, e.act.id) in old(resources) && resources == old(resources) - {(e.m, e.act.id)}
      ensures !old(Granted(Now(), limit, partitions, e)) && !(happened && e.act.Return?) ==> resources == old(resources)
    {
      happened := Possible(managers, limit, e.m, e.act);
      if !happened { return; }
      if Allocates(managers, limit, e.m, e.act) {
        var room := NewSet(e.m, e.act);
      } else if e.act.Return? {
        PutResource(e.m, e.act, e.order);
      } else {
        OwnStep(e.m, e.act);
      }
    }

    /** Any run: the events of any number of requests at any managers, in any order, one after the other. */
    method Serve(events: seq<Event>)
      requires Valid()
      modifies this`managers, this`resources, this`keys, cluster
      ensures Valid()
      ensures Now() == old(Turns(Now(), limit, partitions, events))
    {
      for i := 0 to |events|
        invariant Valid() && Now() == old(Turns(Now(), limit, partitions, events[..i]))
      {
        assert events[..i + 1][..i] == events[..i];
        var happened := Handle(events[i]);
      }
      assert events[..|events|] == events;
    }

    /** What holds in every state of every run: every manager's pool is safe; on every node free plus held is what
        the node has; the slots left are those of the beginning less those of the live sets; exactly the sets created
        and not yet given back hold resources, so a set in use always has its own; two sets of whatever managers share
        no address and no CPU; and when every set has been given back every node has all its slots, ports and CPUs. */
    lemma Safe()
      requires Valid()
      ensures forall m: nat :: m < |managers| ==> Secure(managers[m])
      ensures Books(cluster.nodes, cluster.held, cluster.limits) && cluster.currentSlot == SumSlots(cluster.nodes)
      ensures cluster.currentSlot == total - SlotsTaken(managers, partitions, |partitions|)
      ensures forall m: nat, id: nat :: (m, id) in resources <==>
        m < |managers| && id in managers[m].pool.sets && id !in managers[m].returned
      ensures forall m: nat, id: nat :: m < |managers| && id in managers[m].pool.available ==> (m, id) in resources
      ensures forall k, k' :: k in resources && k' in resources && k != k' ==> Apart(resources[k], resources[k'])
      ensures resources == map[] ==> forall i :: 0 <= i < |cluster.nodes| ==> Full(cluster.nodes[i], cluster.limits)
    {
      PoolsSafe(Ledger(managers, resources, keys, cluster.held), limit);
      AllApart(cluster.nodes, cluster.limits, Ledger(managers, resources, keys, cluster.held), limit);
      if resources == map[] { AllBack(cluster.nodes, cluster.limits, Ledger(managers, resources, keys, cluster.held), limit); }
    }
  }
}
