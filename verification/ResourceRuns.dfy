/** The resource manager under any number of concurrent requests: critical sections, batons in channels, sweeps
    and the return of cluster resources, interleaved in any order. */
module ResourceRuns {
  import opened ContainerPools

  /** A request that is waiting on a channel, or has a container set to itself. */
  datatype Status = Blocked(id: nat, ch: nat) | Holding(id: nat)

  /** `buffer` is how many values each channel holds; its capacity is one. `removed` are the sets a sweep has
      taken out and not yet given back to the cluster, `returned` those given back, in order. `arrivals` and
      `served` record history only: the channels that ever queued for a set, and those that got the baton. */
  datatype System = System(pool: Pool, status: map<nat, Status>, buffer: map<nat, nat>, removed: set<nat>,
                           returned: seq<nat>, arrivals: map<nat, seq<nat>>, served: map<nat, seq<nat>>)

  const START := System(Pool([], {}, map[]), map[], map[], {}, [], map[], map[])

  datatype Action =
    | Ask(r: nat, now: int, newId: nat, ch: nat, choice: nat, room: bool)
    | Receive(r: nat)
    | Put(r: nat)
    | Sweep(cur: int)
    | Return(id: nat)
    | StartLoad(r: nat, now: int)

  predicate Queues(s: System, limit: int)
    requires Known(s.pool)
  {
    s.pool.free == [] && limit != 0 && AnyBelow(s.pool, limit)
  }

  ghost predicate Typed(s: System) {
    && Known(s.pool)
    && (forall id :: id in s.pool.sets ==> id in s.arrivals && id in s.served)
    && (forall r :: r in s.status ==> s.status[r].id in s.pool.sets)
    && (forall r :: r in s.status && s.status[r].Blocked? ==> s.status[r].ch in s.buffer)
    && (forall id, ch :: id in s.pool.sets && ch in QueueOf(s.pool, id) ==> ch in s.buffer)
  }

  /** Random ids and newly made channels are fresh. */
  predicate Enabled(s: System, limit: int, a: Action)
    requires Typed(s)
  {
    match a
    case Ask(r, _, newId, ch, choice, _) =>
      && r !in s.status && newId !in s.pool.sets && ch !in s.buffer
      && (Queues(s, limit) ==> Shortest(s.pool, limit, choice))
    case Receive(r) => r in s.status && s.status[r].Blocked? && s.buffer[s.status[r].ch] > 0
    case Put(r) => r in s.status && s.status[r].Holding?
    case Sweep(_) => true
    case Return(id) => id in s.removed
    case StartLoad(r, _) => r in s.status && s.status[r].Holding?
  }

  /** A request takes the most recently freed set. */
  function Used(s: System, r: nat, now: int): System
    requires Known(s.pool) && s.pool.free != []
  {
    var id := s.pool.free[|s.pool.free| - 1];
    assert id in s.pool.free;
    s.(pool := Taken(s.pool, now), status := s.status[r := Holding(id)])
  }

  /** A request queues behind a set in use. */
  function Lined(s: System, r: nat, id: nat, ch: nat): System
    requires id in s.pool.sets && id in s.arrivals
  {
    s.(pool := Queued(s.pool, id, ch), status := s.status[r := Blocked(id, ch)],
       buffer := s.buffer[ch := 0], arrivals := s.arrivals[id := s.arrivals[id] + [ch]])
  }

  /** A request gets a new set. */
  function Created(s: System, r: nat, id: nat): System {
    s.(pool := Admitted(s.pool, id), status := s.status[r := Holding(id)],
       arrivals := s.arrivals[id := []], served := s.served[id := []])
  }

  function Asked(s: System, limit: int, a: Action): System
    requires Typed(s) && Enabled(s, limit, a) && a.Ask?
  {
    if s.pool.free != [] then Used(s, a.r, a.now)
    else if Queues(s, limit) then Lined(s, a.r, a.choice, a.ch)
    else if a.room then Created(s, a.r, a.newId)
    else s
  }

  function Received(s: System, r: nat): System
    requires r in s.status && s.status[r].Blocked? && s.status[r].ch in s.buffer && s.buffer[s.status[r].ch] > 0
  {
    s.(buffer := s.buffer[s.status[r].ch := s.buffer[s.status[r].ch] - 1],
       status := s.status[r := Holding(s.status[r].id)])
  }

  /** The holder hands the set to the head of its queue. */
  function Passed(s: System, r: nat): System
    requires Typed(s) && r in s.status && QueueOf(s.pool, s.status[r].id) != []
  {
    var id := s.status[r].id;
    var q := QueueOf(s.pool, id);
    assert q[0] in q;
    s.(pool := Released(s.pool, id), status := s.status - {r},
       buffer := s.buffer[q[0] := s.buffer[q[0]] + 1], served := s.served[id := s.served[id] + [q[0]]])
  }

  /** The holder puts the set into the free pool. */
  function Freed(s: System, r: nat): System
    requires Typed(s) && r in s.status
  {
    s.(pool := Released(s.pool, s.status[r].id), status := s.status - {r})
  }

  function Swept(s: System, cur: int): System
    requires Known(s.pool)
  {
    s.(pool := s.pool.(free := Stay(s.pool, cur, s.pool.free)),
       removed := s.removed + (set id | id in Go(s.pool, cur, s.pool.free)))
  }

  function Given(s: System, id: nat): System {
    s.(removed := s.removed - {id}, returned := s.returned + [id])
  }

  function Stamped(s: System, id: nat, now: int): System
    requires id in s.pool.sets
  {
    s.(pool := s.pool.(sets := s.pool.sets[id := s.pool.sets[id].(lastUsed := now)]))
  }

  function Apply(s: System, limit: int, a: Action): System
    requires Typed(s) && Enabled(s, limit, a)
  {
    match a
    case Ask(_, _, _, _, _, _) => Asked(s, limit, a)
    case Receive(r) => Received(s, r)
    case Put(r) => if QueueOf(s.pool, s.status[r].id) != [] then Passed(s, r) else Freed(s, r)
    case Sweep(cur) => Swept(s, cur)
    case Return(id) => Given(s, id)
    case StartLoad(r, now) => Stamped(s, s.status[r].id, now)
  }

  // ---- Where a container set is ----

  ghost function Places(s: System, id: nat): nat {
    multiset(s.pool.free)[id] + (if id in s.pool.available then 1 else 0) +
    (if id in s.removed then 1 else 0) + multiset(s.returned)[id]
  }

  /** Every container set is in exactly one of free, available, removed and returned, and nothing else is. */
  ghost predicate OnePlace(s: System) {
    forall id: nat :: Places(s, id) == if id in s.pool.sets then 1 else 0
  }

  // ---- Who has a container set ----

  /** `r` holds `id`, or the baton for it lies in `r`'s channel. */
  ghost predicate Has(s: System, r: nat, id: nat)
    requires Typed(s)
  {
    && r in s.status && s.status[r].id == id
    && (s.status[r].Blocked? ==> s.buffer[s.status[r].ch] > 0)
  }

  ghost predicate InUse(s: System, id: nat)
    requires Typed(s)
  {
    exists r: nat :: Has(s, r, id)
  }

  ghost predicate Holders(s: System)
    requires Typed(s)
  {
    && (forall r: nat, id: nat :: Has(s, r, id) ==> id in s.pool.available)
    && (forall r: nat, r': nat, id: nat :: Has(s, r, id) && Has(s, r', id) ==> r == r')
    && (forall id :: id in s.pool.available ==> InUse(s, id))
  }

  // ---- Who waits ----

  ghost predicate WaitsOn(s: System, r: nat, id: nat, ch: nat) {
    r in s.status && s.status[r] == Blocked(id, ch)
  }

  ghost predicate HasWaiter(s: System, id: nat, ch: nat) {
    exists r: nat :: WaitsOn(s, r, id, ch)
  }

  /** A queued channel is empty and somebody waits on it; a waiting request is queued, or its baton has come. */
  ghost predicate Waiters(s: System)
    requires Typed(s)
  {
    && (forall id, ch :: id in s.pool.sets && ch in QueueOf(s.pool, id) ==> s.buffer[ch] == 0 && HasWaiter(s, id, ch))
    && (forall r: nat, id: nat, ch: nat :: WaitsOn(s, r, id, ch) ==>
          if ch in QueueOf(s.pool, id) then s.buffer[ch] == 0 else s.buffer[ch] == 1)
    && (forall r: nat, r': nat, id: nat, id': nat, ch: nat :: WaitsOn(s, r, id, ch) && WaitsOn(s, r', id', ch) ==> r == r')
  }

  ghost predicate Distinct(q: seq<nat>) {
    forall i, j :: 0 <= i < j < |q| ==> q[i] != q[j]
  }

  /** Queues: empty unless the set is in use, at most `limit` long, without repetition, and first come first served. */
  ghost predicate QueueOk(s: System, limit: int, id: nat)
    requires Typed(s) && id in s.pool.sets
  {
    var q := QueueOf(s.pool, id);
    && (id !in s.pool.available ==> q == [])
    && (q != [] ==> |q| <= limit)
    && Distinct(q)
    && s.arrivals[id] == s.served[id] + q
  }

  ghost predicate QueuesOk(s: System, limit: int)
    requires Typed(s)
  {
    forall id :: id in s.pool.sets ==> QueueOk(s, limit, id)
  }

  ghost predicate Inv(s: System, limit: int) {
    Typed(s) && OnePlace(s) && Holders(s) && Waiters(s) && QueuesOk(s, limit)
  }

  // ---- Taking a free set ----

  lemma LastFree(s: System)
    requires Typed(s) && OnePlace(s) && s.pool.free != []
    ensures var id := s.pool.free[|s.pool.free| - 1];
      && id in s.pool.sets && id !in s.pool.available && id !in s.removed && multiset(s.returned)[id] == 0
      && forall x: nat :: multiset(s.pool.free[..|s.pool.free| - 1])[x] == multiset(s.pool.free)[x] - (if x == id then 1 else 0)
  {
    var last := |s.pool.free| - 1;
    var id := s.pool.free[last];
    assert id in s.pool.free;
    assert s.pool.free == s.pool.free[..last] + [id];
    assert multiset(s.pool.free)[id] >= 1 && Places(s, id) == 1;
  }

  lemma UsedTyped(s: System, r: nat, now: int)
    requires Typed(s) && s.pool.free != [] && r !in s.status
    ensures Typed(Used(s, r, now))
  {
    assert s.pool.free[|s.pool.free| - 1] in s.pool.free;
    assert forall id :: id in Used(s, r, now).pool.free ==> id in s.pool.free;
  }

  lemma UsedPlaces(s: System, r: nat, now: int)
    requires Typed(s) && OnePlace(s) && s.pool.free != []
    ensures OnePlace(Used(s, r, now))
  {
    LastFree(s);
    var t := Used(s, r, now);
    forall id: nat
      ensures Places(t, id) == if id in t.pool.sets then 1 else 0
    {
      assert Places(s, id) == if id in s.pool.sets then 1 else 0;
    }
  }

  /** Holders carry over when one request gains one set and nobody loses any. */
  lemma StillInUse(s: System, t: System, r: nat, last: nat)
    requires Typed(s) && Typed(t) && Holders(s)
    requires t.pool.available == s.pool.available + {last}
    requires forall r': nat, id: nat :: Has(t, r', id) <==> Has(s, r', id) || (r' == r && id == last)
    ensures forall id :: id in t.pool.available ==> InUse(t, id)
  {
    forall id | id in t.pool.available
      ensures InUse(t, id)
    {
      if id == last {
        assert Has(t, r, last);
      } else {
        var r': nat :| Has(s, r', id);
        assert Has(t, r', id);
      }
    }
  }

  lemma UsedHolders(s: System, r: nat, now: int)
    requires Typed(s) && OnePlace(s) && Holders(s) && s.pool.free != [] && r !in s.status
    requires Typed(Used(s, r, now))
    ensures Holders(Used(s, r, now))
  {
    LastFree(s);
    var t := Used(s, r, now);
    var last := s.pool.free[|s.pool.free| - 1];
    forall r': nat, id: nat
      ensures Has(t, r', id) <==> Has(s, r', id) || (r' == r && id == last)
    {
    }
    StillInUse(s, t, r, last);
  }

  /** Steps that touch no channel and no waiting request keep the waiters as they are. */
  lemma SameWaiters(s: System, t: System)
    requires Typed(s) && Typed(t) && Waiters(s)
    requires t.buffer == s.buffer
    requires forall r: nat, id: nat, ch: nat :: WaitsOn(t, r, id, ch) <==> WaitsOn(s, r, id, ch)
    requires forall id :: id in t.pool.sets ==>
      if id in s.pool.sets then QueueOf(t.pool, id) == QueueOf(s.pool, id) else QueueOf(t.pool, id) == []
    requires forall id :: id in s.pool.sets ==> id in t.pool.sets
    ensures Waiters(t)
  {
    forall id, ch | id in t.pool.sets && ch in QueueOf(t.pool, id)
      ensures t.buffer[ch] == 0 && HasWaiter(t, id, ch)
    {
      assert HasWaiter(s, id, ch);
      var r: nat :| WaitsOn(s, r, id, ch);
      assert WaitsOn(t, r, id, ch);
    }
  }

  lemma UsedQueues(s: System, limit: int, r: nat, now: int)
    requires Inv(s, limit) && s.pool.free != [] && r !in s.status && Typed(Used(s, r, now))
    ensures Waiters(Used(s, r, now)) && QueuesOk(Used(s, r, now), limit)
  {
    var t := Used(s, r, now);
    SameWaiters(s, t);
    forall id | id in t.pool.sets
      ensures QueueOk(t, limit, id)
    {
      assert QueueOk(s, limit, id);
    }
  }

  lemma UsedInv(s: System, limit: int, r: nat, now: int)
    requires Inv(s, limit) && s.pool.free != [] && r !in s.status
    ensures Inv(Used(s, r, now), limit)
  {
    UsedTyped(s, r, now);
    UsedPlaces(s, r, now);
    UsedHolders(s, r, now);
    UsedQueues(s, limit, r, now);
  }

  // ---- Queueing ----

  lemma LinedPlaces(s: System, r: nat, id: nat, ch: nat)
    requires Typed(s) && OnePlace(s) && r !in s.status && ch !in s.buffer && id in s.pool.available
    ensures Typed(Lined(s, r, id, ch)) && OnePlace(Lined(s, r, id, ch))
  {
    var t := Lined(s, r, id, ch);
    forall x: nat
      ensures Places(t, x) == if x in t.pool.sets then 1 else 0
    {
      assert Places(s, x) == if x in s.pool.sets then 1 else 0;
    }
  }

  lemma LinedHolders(s: System, r: nat, id: nat, ch: nat)
    requires Typed(s) && Holders(s) && r !in s.status && ch !in s.buffer && id in s.pool.available
    requires Typed(Lined(s, r, id, ch))
    ensures Holders(Lined(s, r, id, ch))
  {
    var t := Lined(s, r, id, ch);
    forall r': nat, x: nat
      ensures Has(t, r', x) <==> Has(s, r', x)
    {
    }
    forall x | x in t.pool.available
      ensures InUse(t, x)
    {
      var r': nat :| Has(s, r', x);
      assert Has(t, r', x);
    }
  }

  lemma LinedWaiters(s: System, r: nat, id: nat, ch: nat)
    requires Typed(s) && Waiters(s) && r !in s.status && ch !in s.buffer && id in s.pool.available
    requires Typed(Lined(s, r, id, ch))
    ensures Waiters(Lined(s, r, id, ch))
  {
    var t := Lined(s, r, id, ch);
    forall r': nat, x: nat, c: nat
      ensures WaitsOn(t, r', x, c) <==> WaitsOn(s, r', x, c) || (r' == r && x == id && c == ch)
    {
    }
    forall x, c | x in t.pool.sets && c in QueueOf(t.pool, x)
      ensures t.buffer[c] == 0 && HasWaiter(t, x, c)
    {
      if x == id && c == ch {
        assert WaitsOn(t, r, id, ch);
      } else {
        assert c in QueueOf(s.pool, x) && HasWaiter(s, x, c);
        var r': nat :| WaitsOn(s, r', x, c);
        assert WaitsOn(t, r', x, c);
      }
    }
  }

  lemma LinedQueues(s: System, limit: int, r: nat, id: nat, ch: nat)
    requires Typed(s) && QueuesOk(s, limit) && ch !in s.buffer && id in s.pool.available
    requires |QueueOf(s.pool, id)| < limit && Typed(Lined(s, r, id, ch))
    ensures QueuesOk(Lined(s, r, id, ch), limit)
  {
    var t := Lined(s, r, id, ch);
    forall x | x in t.pool.sets
      ensures QueueOk(t, limit, x)
    {
      assert QueueOk(s, limit, x);
      if x == id {
        var q := QueueOf(s.pool, id);
        assert ch !in q;
        assert (s.served[id] + q) + [ch] == s.served[id] + (q + [ch]);
      }
    }
  }

  lemma LinedInv(s: System, limit: int, r: nat, id: nat, ch: nat)
    requires Inv(s, limit) && r !in s.status && ch !in s.buffer && id in s.pool.available
    requires |QueueOf(s.pool, id)| < limit
    ensures Inv(Lined(s, r, id, ch), limit)
  {
    LinedPlaces(s, r, id, ch);
    LinedHolders(s, r, id, ch);
    LinedWaiters(s, r, id, ch);
    LinedQueues(s, limit, r, id, ch);
  }

  // ---- A new set ----

  lemma CreatedTyped(s: System, r: nat, id: nat)
    requires Typed(s) && r !in s.status && id !in s.pool.sets
    ensures Typed(Created(s, r, id))
  {
  }

  lemma CreatedPlaces(s: System, r: nat, id: nat)
    requires OnePlace(s) && id !in s.pool.sets
    ensures OnePlace(Created(s, r, id))
  {
    var t := Created(s, r, id);
    forall x: nat
      ensures Places(t, x) == if x in t.pool.sets then 1 else 0
    {
      assert Places(s, x) == if x in s.pool.sets then 1 else 0;
    }
  }

  lemma CreatedHolders(s: System, r: nat, id: nat)
    requires Typed(s) && Holders(s) && r !in s.status && id !in s.pool.sets && Typed(Created(s, r, id))
    ensures Holders(Created(s, r, id))
  {
    var t := Created(s, r, id);
    forall r': nat, x: nat
      ensures Has(t, r', x) <==> Has(s, r', x) || (r' == r && x == id)
    {
    }
    StillInUse(s, t, r, id);
  }

  lemma CreatedQueues(s: System, limit: int, r: nat, id: nat)
    requires Typed(s) && Waiters(s) && QueuesOk(s, limit) && r !in s.status && id !in s.pool.sets
    requires Typed(Created(s, r, id))
    ensures Waiters(Created(s, r, id)) && QueuesOk(Created(s, r, id), limit)
  {
    var t := Created(s, r, id);
    SameWaiters(s, t);
    forall x | x in t.pool.sets
      ensures QueueOk(t, limit, x)
    {
      if x != id { assert QueueOk(s, limit, x); }
    }
  }

  lemma CreatedInv(s: System, limit: int, r: nat, id: nat)
    requires Inv(s, limit) && r !in s.status && id !in s.pool.sets
    ensures Inv(Created(s, r, id), limit)
  {
    CreatedTyped(s, r, id);
    CreatedPlaces(s, r, id);
    CreatedHolders(s, r, id);
    CreatedQueues(s, limit, r, id);
  }

  // ---- Receiving the baton ----

  lemma ReceivedWaiters(s: System, r: nat)
    requires Typed(s) && Waiters(s) && r in s.status && s.status[r].Blocked? && s.buffer[s.status[r].ch] > 0
    ensures Typed(Received(s, r)) && Waiters(Received(s, r))
  {
    var t, got := Received(s, r), s.status[r];
    assert WaitsOn(s, r, got.id, got.ch);
    forall x, c | x in t.pool.sets && c in QueueOf(t.pool, x)
      ensures t.buffer[c] == 0 && HasWaiter(t, x, c)
    {
      assert HasWaiter(s, x, c);
      var r': nat :| WaitsOn(s, r', x, c);
      assert WaitsOn(t, r', x, c);
    }
    forall r': nat, x: nat, c: nat | WaitsOn(t, r', x, c)
      ensures WaitsOn(s, r', x, c) && c != got.ch
    {
      assert WaitsOn(s, r', x, c) && r' != r;
    }
  }

  lemma ReceivedHolders(s: System, r: nat)
    requires Typed(s) && Waiters(s) && Holders(s)
    requires r in s.status && s.status[r].Blocked? && s.buffer[s.status[r].ch] > 0 && Typed(Received(s, r))
    ensures Holders(Received(s, r))
  {
    var t, got := Received(s, r), s.status[r];
    forall r': nat, x: nat
      ensures Has(t, r', x) <==> Has(s, r', x)
    {
      assert WaitsOn(s, r, got.id, got.ch);
      if r' in s.status && s.status[r'].Blocked? { assert WaitsOn(s, r', s.status[r'].id, s.status[r'].ch); }
    }
    forall x | x in t.pool.available
      ensures InUse(t, x)
    {
      var r': nat :| Has(s, r', x);
      assert Has(t, r', x);
    }
  }

  lemma ReceivedInv(s: System, limit: int, r: nat)
    requires Inv(s, limit) && r in s.status && s.status[r].Blocked? && s.buffer[s.status[r].ch] > 0
    ensures Inv(Received(s, r), limit)
  {
    ReceivedWaiters(s, r);
    ReceivedHolders(s, r);
    var t := Received(s, r);
    forall x: nat
      ensures Places(t, x) == if x in t.pool.sets then 1 else 0
    {
      assert Places(s, x) == if x in s.pool.sets then 1 else 0;
    }
    forall x | x in t.pool.sets
      ensures QueueOk(t, limit, x)
    {
      assert QueueOk(s, limit, x);
    }
  }

  // ---- Passing the set on ----

  /** The channel at the head of a queue is empty: the send under the mutex cannot block. */
  lemma SendNeverBlocks(s: System, limit: int, id: nat)
    requires Inv(s, limit) && id in s.pool.sets && QueueOf(s.pool, id) != []
    ensures QueueOf(s.pool, id)[0] in s.buffer && s.buffer[QueueOf(s.pool, id)[0]] == 0
  {
    assert QueueOf(s.pool, id)[0] in QueueOf(s.pool, id);
  }

  lemma RestOfQueue(q: seq<nat>)
    requires q != [] && Distinct(q)
    ensures Distinct(q[1..]) && q[0] !in q[1..]
    ensures forall c :: c in q <==> c == q[0] || c in q[1..]
  {
  }

  ghost predicate Passable(s: System, r: nat)
    requires Typed(s)
  {
    r in s.status && s.status[r].Holding? && QueueOf(s.pool, s.status[r].id) != []
  }

  ghost predicate CanPass(s: System, limit: int, r: nat) {
    Inv(s, limit) && Passable(s, r)
  }

  lemma PassedTyped(s: System, r: nat)
    requires Typed(s) && Passable(s, r)
    ensures Typed(Passed(s, r))
  {
    forall x, ch | x in s.pool.sets && ch in QueueOf(Passed(s, r).pool, x)
      ensures ch in QueueOf(s.pool, x)
    {
    }
  }

  lemma PassedPlaces(s: System, r: nat)
    requires Typed(s) && OnePlace(s) && Passable(s, r)
    ensures OnePlace(Passed(s, r))
  {
    var t := Passed(s, r);
    forall x: nat
      ensures Places(t, x) == if x in t.pool.sets then 1 else 0
    {
      assert Places(s, x) == if x in s.pool.sets then 1 else 0;
    }
  }

  lemma PassedWaits(s: System, r: nat, r': nat, x: nat, c: nat)
    requires Typed(s) && Passable(s, r)
    ensures WaitsOn(Passed(s, r), r', x, c) <==> WaitsOn(s, r', x, c)
  {
  }

  /** The other queues never contain the head's channel. */
  lemma HeadIsAlone(s: System, id: nat, x: nat, c: nat)
    requires Typed(s) && Waiters(s) && id in s.pool.sets && QueueOf(s.pool, id) != [] && Distinct(QueueOf(s.pool, id))
    requires x in s.pool.sets && c in (if x == id then QueueOf(s.pool, id)[1..] else QueueOf(s.pool, x))
    ensures c in QueueOf(s.pool, x) && c != QueueOf(s.pool, id)[0]
  {
    var head := QueueOf(s.pool, id)[0];
    RestOfQueue(QueueOf(s.pool, id));
    assert HasWaiter(s, id, head) && HasWaiter(s, x, c);
    var w: nat :| WaitsOn(s, w, id, head);
    var w': nat :| WaitsOn(s, w', x, c);
  }

  lemma PassedWaiter(s: System, r: nat, r': nat, x: nat, c: nat)
    requires Typed(s) && Waiters(s) && Passable(s, r) && Distinct(QueueOf(s.pool, s.status[r].id))
    requires Typed(Passed(s, r)) && WaitsOn(s, r', x, c)
    ensures x in s.pool.sets && c in s.buffer
    ensures if c in QueueOf(Passed(s, r).pool, x) then Passed(s, r).buffer[c] == 0 else Passed(s, r).buffer[c] == 1
  {
    var id := s.status[r].id;
    var head := QueueOf(s.pool, id)[0];
    RestOfQueue(QueueOf(s.pool, id));
    assert head in QueueOf(s.pool, id) && HasWaiter(s, id, head);
    var w: nat :| WaitsOn(s, w, id, head);
  }

  lemma PassedWaiters(s: System, r: nat)
    requires Typed(s) && Waiters(s) && Passable(s, r) && Distinct(QueueOf(s.pool, s.status[r].id))
    requires Typed(Passed(s, r))
    ensures Waiters(Passed(s, r))
  {
    var t, id := Passed(s, r), s.status[r].id;
    RestOfQueue(QueueOf(s.pool, id));
    forall r': nat, x: nat, c: nat
      ensures WaitsOn(t, r', x, c) <==> WaitsOn(s, r', x, c)
    {
      PassedWaits(s, r, r', x, c);
    }
    forall x, c | x in t.pool.sets && c in QueueOf(t.pool, x)
      ensures t.buffer[c] == 0 && HasWaiter(t, x, c)
    {
      HeadIsAlone(s, id, x, c);
      assert HasWaiter(s, x, c);
      var r': nat :| WaitsOn(s, r', x, c);
      assert WaitsOn(t, r', x, c);
    }
    forall r': nat, x: nat, c: nat | WaitsOn(t, r', x, c)
      ensures if c in QueueOf(t.pool, x) then t.buffer[c] == 0 else t.buffer[c] == 1
    {
      PassedWaiter(s, r, r', x, c);
    }
  }

  lemma HasAfterPass(s: System, limit: int, r: nat, w: nat, r': nat, x: nat)
    requires CanPass(s, limit, r) && Typed(Passed(s, r)) && Has(Passed(s, r), r', x)
    requires WaitsOn(s, w, s.status[r].id, QueueOf(s.pool, s.status[r].id)[0])
    ensures (Has(s, r', x) && x != s.status[r].id) || (r' == w && x == s.status[r].id)
  {
    var id := s.status[r].id;
    var head := QueueOf(s.pool, id)[0];
    assert Has(s, r, id);
    if s.status[r'].Blocked? && s.status[r'].ch == head {
      assert WaitsOn(s, r', s.status[r'].id, head);
    } else {
      assert Has(s, r', x);
    }
  }

  lemma PassedHolders(s: System, limit: int, r: nat)
    requires CanPass(s, limit, r) && Typed(Passed(s, r))
    ensures Holders(Passed(s, r))
  {
    var t, id := Passed(s, r), s.status[r].id;
    var q := QueueOf(s.pool, id);
    SendNeverBlocks(s, limit, id);
    assert HasWaiter(s, id, q[0]);
    var w: nat :| WaitsOn(s, w, id, q[0]);
    assert Has(s, r, id) && Has(t, w, id);
    forall r': nat, x: nat | Has(t, r', x)
      ensures (Has(s, r', x) && x != id) || (r' == w && x == id)
    {
      HasAfterPass(s, limit, r, w, r', x);
    }
    forall x | x in t.pool.available
      ensures InUse(t, x)
    {
      if x != id {
        var r': nat :| Has(s, r', x);
        assert Has(t, r', x);
      }
    }
  }

  lemma PassedQueue(s: System, limit: int, r: nat)
    requires Typed(s) && Passable(s, r) && QueueOk(s, limit, s.status[r].id) && Typed(Passed(s, r))
    ensures QueueOk(Passed(s, r), limit, s.status[r].id)
  {
    var id := s.status[r].id;
    var q := QueueOf(s.pool, id);
    RestOfQueue(q);
    assert q == [q[0]] + q[1..];
    assert s.served[id] + ([q[0]] + q[1..]) == (s.served[id] + [q[0]]) + q[1..];
  }

  lemma PassedQueues(s: System, limit: int, r: nat)
    requires Typed(s) && Passable(s, r) && QueuesOk(s, limit) && Typed(Passed(s, r))
    ensures QueuesOk(Passed(s, r), limit)
  {
    var t := Passed(s, r);
    forall x | x in t.pool.sets
      ensures QueueOk(t, limit, x)
    {
      assert QueueOk(s, limit, x);
      if x == s.status[r].id { PassedQueue(s, limit, r); }
    }
  }

  /** The request that waited longest has the set after the hand-over. */
  lemma BatonToHead(s: System, limit: int, r: nat) returns (w: nat)
    requires CanPass(s, limit, r)
    ensures WaitsOn(s, w, s.status[r].id, QueueOf(s.pool, s.status[r].id)[0])
    ensures Typed(Passed(s, r)) && Has(Passed(s, r), w, s.status[r].id)
  {
    var id := s.status[r].id;
    var head := QueueOf(s.pool, id)[0];
    PassedTyped(s, r);
    assert head in QueueOf(s.pool, id) && HasWaiter(s, id, head);
    w :| WaitsOn(s, w, id, head);
  }

  // ---- Freeing ----

  ghost predicate CanFree(s: System, limit: int, r: nat) {
    Inv(s, limit) && r in s.status && s.status[r].Holding? && QueueOf(s.pool, s.status[r].id) == []
  }

  lemma FreedTyped(s: System, r: nat)
    requires Typed(s) && r in s.status
    ensures Typed(Freed(s, r))
  {
    assert forall x :: x in Freed(s, r).pool.free ==> x in s.pool.free || x == s.status[r].id;
    forall x, ch | x in s.pool.sets && ch in QueueOf(Freed(s, r).pool, x)
      ensures ch in QueueOf(s.pool, x)
    {
    }
  }

  lemma FreedPlaces(s: System, r: nat)
    requires Typed(s) && OnePlace(s) && r in s.status && s.status[r].id in s.pool.available
    requires QueueOf(s.pool, s.status[r].id) == []
    ensures OnePlace(Freed(s, r))
  {
    var t := Freed(s, r);
    forall x: nat
      ensures Places(t, x) == if x in t.pool.sets then 1 else 0
    {
      assert Places(s, x) == if x in s.pool.sets then 1 else 0;
    }
  }

  lemma FreedHolders(s: System, limit: int, r: nat)
    requires CanFree(s, limit, r) && Typed(Freed(s, r))
    ensures Holders(Freed(s, r))
  {
    var t, id := Freed(s, r), s.status[r].id;
    assert Has(s, r, id);
    forall r': nat, x: nat
      ensures Has(t, r', x) <==> Has(s, r', x) && r' != r
    {
    }
    forall x | x in t.pool.available
      ensures InUse(t, x)
    {
      var r': nat :| Has(s, r', x);
      assert Has(t, r', x);
    }
  }

  lemma FreedInv(s: System, limit: int, r: nat)
    requires CanFree(s, limit, r)
    ensures Inv(Freed(s, r), limit)
  {
    assert Has(s, r, s.status[r].id);
    FreedTyped(s, r);
    FreedPlaces(s, r);
    FreedHolders(s, limit, r);
    var t := Freed(s, r);
    SameWaiters(s, t);
    forall x | x in t.pool.sets
      ensures QueueOk(t, limit, x)
    {
      assert QueueOk(s, limit, x);
    }
  }

  // ---- Sweeping and returning ----

  lemma {:induction false} SweepWithin(p: Pool, cur: int, ids: seq<nat>)
    requires forall id :: id in ids ==> id in p.sets
    ensures forall x :: x in Stay(p, cur, ids) || x in Go(p, cur, ids) ==> x in ids
  {
    if ids != [] { SweepWithin(p, cur, ids[..|ids| - 1]); }
  }

  /** A set is in the sweep's results as often as it was free. */
  lemma SweptFree(p: Pool, cur: int, x: nat)
    requires Known(p)
    ensures multiset(p.free)[x] == multiset(Stay(p, cur, p.free))[x] + multiset(Go(p, cur, p.free))[x]
  {
    if x in p.sets {
      SweepCounts(p, cur, p.free, x);
    } else {
      SweepWithin(p, cur, p.free);
      assert x !in p.free && x !in Stay(p, cur, p.free) && x !in Go(p, cur, p.free);
    }
  }

  lemma SweptPlaces(s: System, cur: int, x: nat)
    requires Typed(s) && Places(s, x) == if x in s.pool.sets then 1 else 0
    ensures Places(Swept(s, cur), x) == if x in s.pool.sets then 1 else 0
  {
    var stay: seq<nat>, go: seq<nat> := Stay(s.pool, cur, s.pool.free), Go(s.pool, cur, s.pool.free);
    SweptFree(s.pool, cur, x);
    assert x in go <==> multiset(go)[x] > 0;
    var t := Swept(s, cur);
    assert t.pool.free == stay && t.returned == s.returned && t.pool.available == s.pool.available;
    assert x in t.removed <==> x in s.removed || x in go;
  }

  /** A change that leaves requests, channels, queues and the available pool alone. */
  ghost predicate Elsewhere(s: System, t: System) {
    && Typed(s) && Typed(t)
    && t.status == s.status && t.buffer == s.buffer && t.arrivals == s.arrivals && t.served == s.served
    && t.pool.available == s.pool.available && t.pool.sets.Keys == s.pool.sets.Keys
    && forall id :: id in s.pool.sets ==> QueueOf(t.pool, id) == QueueOf(s.pool, id)
  }

  lemma ElsewhereInv(s: System, t: System, limit: int)
    requires Inv(s, limit) && Elsewhere(s, t) && OnePlace(t)
    ensures Inv(t, limit)
  {
    forall r: nat, id: nat
      ensures Has(t, r, id) <==> Has(s, r, id)
    {
    }
    forall id | id in t.pool.available
      ensures InUse(t, id)
    {
      var r: nat :| Has(s, r, id);
      assert Has(t, r, id);
    }
    SameWaiters(s, t);
    forall x | x in t.pool.sets
      ensures QueueOk(t, limit, x)
    {
      assert QueueOk(s, limit, x);
    }
  }

  lemma SweptTyped(s: System, cur: int)
    requires Typed(s)
    ensures Typed(Swept(s, cur))
  {
    SweepWithin(s.pool, cur, s.pool.free);
  }

  lemma SweptOnePlace(s: System, cur: int)
    requires Typed(s) && OnePlace(s)
    ensures OnePlace(Swept(s, cur))
  {
    forall x: nat
      ensures Places(Swept(s, cur), x) == if x in Swept(s, cur).pool.sets then 1 else 0
    {
      assert Places(s, x) == if x in s.pool.sets then 1 else 0;
      SweptPlaces(s, cur, x);
    }
  }

  lemma SweptInv(s: System, limit: int, cur: int)
    requires Inv(s, limit)
    ensures Inv(Swept(s, cur), limit)
  {
    SweptTyped(s, cur);
    SweptOnePlace(s, cur);
    ElsewhereInv(s, Swept(s, cur), limit);
  }

  lemma GivenInv(s: System, limit: int, id: nat)
    requires Inv(s, limit) && id in s.removed
    ensures Inv(Given(s, id), limit)
  {
    forall x: nat
      ensures Places(Given(s, id), x) == if x in s.pool.sets then 1 else 0
    {
      assert Places(s, x) == if x in s.pool.sets then 1 else 0;
    }
    ElsewhereInv(s, Given(s, id), limit);
  }

  lemma StampedPlaces(s: System, id: nat, now: int)
    requires Typed(s) && OnePlace(s) && id in s.pool.sets
    ensures OnePlace(Stamped(s, id, now))
  {
    forall x: nat
      ensures Places(Stamped(s, id, now), x) == if x in s.pool.sets then 1 else 0
    {
      assert Places(s, x) == if x in s.pool.sets then 1 else 0;
    }
  }

  lemma StampedInv(s: System, limit: int, id: nat, now: int)
    requires Inv(s, limit) && id in s.pool.sets
    ensures Inv(Stamped(s, id, now), limit)
  {
    StampedPlaces(s, id, now);
    ElsewhereInv(s, Stamped(s, id, now), limit);
  }

  /** The put of the set `id` that has somebody waiting. */
  ghost predicate HandsOver(s: System, a: Action, id: nat)
    requires Typed(s) && id in s.pool.sets
  {
    a.Put? && a.r in s.status && s.status[a.r].id == id && QueueOf(s.pool, id) != []
  }

  /** Arrivals only grow; exactly a hand-over serves, and it serves the head of the queue. */
  lemma HistoryGrows(s: System, limit: int, a: Action, id: nat)
    requires Typed(s) && Enabled(s, limit, a) && id in s.pool.sets
    ensures id in Apply(s, limit, a).pool.sets && id in Apply(s, limit, a).arrivals && id in Apply(s, limit, a).served
    ensures s.arrivals[id] <= Apply(s, limit, a).arrivals[id]
    ensures Apply(s, limit, a).served[id] ==
      if HandsOver(s, a, id) then s.served[id] + [QueueOf(s.pool, id)[0]] else s.served[id]
  {
  }

  // ---- Whole runs ----

  lemma StepInv(s: System, limit: int, a: Action)
    requires Inv(s, limit) && Enabled(s, limit, a)
    ensures Inv(Apply(s, limit, a), limit)
  {
    match a
    case Ask(r, now, newId, ch, choice, room) =>
      if s.pool.free != [] {
        UsedInv(s, limit, r, now);
      } else if Queues(s, limit) {
        LinedInv(s, limit, r, choice, ch);
      } else if room {
        CreatedInv(s, limit, r, newId);
      }
    case Receive(r) => ReceivedInv(s, limit, r);
    case Put(r) =>
      if QueueOf(s.pool, s.status[r].id) != [] {
        assert QueueOk(s, limit, s.status[r].id);
        PassedTyped(s, r);
        PassedPlaces(s, r);
        PassedWaiters(s, r);
        PassedHolders(s, limit, r);
        PassedQueues(s, limit, r);
      } else {
        FreedInv(s, limit, r);
      }
    case Sweep(cur) => SweptInv(s, limit, cur);
    case Return(id) => GivenInv(s, limit, id);
    case StartLoad(r, now) => StampedInv(s, limit, s.status[r].id, now);
  }

  ghost predicate Steps(s: System, limit: int, t: System) {
    Typed(s) && exists a :: Enabled(s, limit, a) && t == Apply(s, limit, a)
  }

  ghost predicate Run(limit: int, tr: seq<System>) {
    && |tr| > 0 && tr[0] == START
    && forall i: nat :: i + 1 < |tr| ==> Steps(tr[i], limit, tr[i + 1])
  }

  lemma StepsInv(limit: int, tr: seq<System>, i: nat)
    requires Run(limit, tr) && i + 1 < |tr| && Inv(tr[i], limit)
    ensures Inv(tr[i + 1], limit)
  {
    assert Steps(tr[i], limit, tr[i + 1]);
    var a :| Enabled(tr[i], limit, a) && tr[i + 1] == Apply(tr[i], limit, a);
    StepInv(tr[i], limit, a);
  }

  lemma RunInv(limit: int, tr: seq<System>, i: nat)
    requires Run(limit, tr) && i < |tr|
    ensures Inv(tr[i], limit)
  {
    for j := 0 to i
      invariant Inv(tr[j], limit)
    {
      StepsInv(limit, tr, j);
    }
  }

  /** Each container set is in exactly one of the free pool, the available pool, the removed sets and the returned
      sets, so its resources are given back at most once; an available set has exactly one holder (or one delivered
      baton), the others have neither holder nor queue. */
  ghost predicate Secure(s: System) {
    && Typed(s)
    && (forall id: nat :: id in s.pool.sets ==> Places(s, id) == 1)
    && (forall id: nat :: id in s.pool.available ==> InUse(s, id))
    && (forall id: nat, r: nat, r': nat :: Has(s, r, id) && Has(s, r', id) ==> r == r')
    && (forall id: nat :: id in s.pool.sets && id !in s.pool.available ==> !InUse(s, id) && QueueOf(s.pool, id) == [])
    && (forall id: nat :: multiset(s.returned)[id] <= 1)
  }

  lemma InvSecure(s: System, limit: int)
    requires Inv(s, limit)
    ensures Secure(s)
  {
    forall id: nat
      ensures multiset(s.returned)[id] <= 1
    {
      assert Places(s, id) <= 1;
    }
    forall id: nat | id in s.pool.sets
      ensures Places(s, id) == 1
      ensures id !in s.pool.available ==> QueueOf(s.pool, id) == []
    {
      assert QueueOk(s, limit, id);
    }
  }

  /** In every state of every run the pool is safe. */
  lemma Safety(limit: int, tr: seq<System>, i: nat)
    requires Run(limit, tr) && i < |tr|
    ensures Secure(tr[i])
  {
    RunInv(limit, tr, i);
    InvSecure(tr[i], limit);
  }

  /** Between two states of a run: more may have arrived, and if somebody was served it was the head of the queue. */
  ghost predicate ServesHead(s: System, t: System, id: nat)
    requires Typed(s) && id in s.pool.sets
  {
    && id in t.arrivals && id in t.served && s.arrivals[id] <= t.arrivals[id]
    && (t.served[id] == s.served[id]
        || (QueueOf(s.pool, id) != [] && t.served[id] == s.served[id] + [QueueOf(s.pool, id)[0]]))
  }

  lemma StepServes(s: System, limit: int, t: System, id: nat)
    requires Steps(s, limit, t) && id in s.pool.sets
    ensures ServesHead(s, t, id)
  {
    var a :| Enabled(s, limit, a) && t == Apply(s, limit, a);
    HistoryGrows(s, limit, a, id);
  }

  lemma QueueFacts(s: System, limit: int, id: nat)
    requires Inv(s, limit) && id in s.pool.sets
    ensures QueueOf(s.pool, id) != [] ==> |QueueOf(s.pool, id)| <= limit
    ensures s.arrivals[id] == s.served[id] + QueueOf(s.pool, id)
    ensures forall ch :: ch in QueueOf(s.pool, id) ==> s.buffer[ch] == 0 && HasWaiter(s, id, ch)
  {
    assert QueueOk(s, limit, id);
  }

  /** Queues over every run: at most `limit` waiters, served in the order they came, each step serving nobody or the
      one who waits longest, and no send ever blocks. */
  lemma Fairness(limit: int, tr: seq<System>, i: nat, id: nat)
    requires Run(limit, tr) && i < |tr| && Typed(tr[i]) && id in tr[i].pool.sets
    ensures QueueOf(tr[i].pool, id) != [] ==> |QueueOf(tr[i].pool, id)| <= limit
    ensures tr[i].arrivals[id] == tr[i].served[id] + QueueOf(tr[i].pool, id)
    ensures forall ch :: ch in QueueOf(tr[i].pool, id) ==> tr[i].buffer[ch] == 0 && HasWaiter(tr[i], id, ch)
    ensures i + 1 < |tr| ==> ServesHead(tr[i], tr[i + 1], id)
  {
    RunInv(limit, tr, i);
    QueueFacts(tr[i], limit, id);
    if i + 1 < |tr| {
      assert Steps(tr[i], limit, tr[i + 1]);
      StepServes(tr[i], limit, tr[i + 1], id);
    }
  }
}
