/** The pools of one application resource manager: free container sets, available (in use) ones with their wait
    queues, and what each critical section does to them. */
module ContainerPools {

  const ALLOW_IDLE_TIME := 1200

  /** `waitQueue` holds the channels of the requests queued for the set. */
  datatype ContainerSet = ContainerSet(waitQueue: seq<nat>, lastUsed: int)

  /** `sets` holds every container set ever created, by id. */
  datatype Pool = Pool(free: seq<nat>, available: set<nat>, sets: map<nat, ContainerSet>)

  /** What a request comes away with: a set to use, a set to load first, a channel to wait on, or nothing. */
  datatype Grant = Use(id: nat) | Load(id: nat) | Wait(id: nat, ch: nat) | Refused

  predicate Known(p: Pool) {
    && (forall id :: id in p.free ==> id in p.sets)
    && (forall id :: id in p.available ==> id in p.sets)
  }

  function QueueOf(p: Pool, id: nat): seq<nat>
    requires id in p.sets
  {
    p.sets[id].waitQueue
  }

  /** A set a request may queue for: below the limit, and no other available queue is shorter. */
  predicate Shortest(p: Pool, limit: int, id: nat)
    requires Known(p)
  {
    && id in p.available && |QueueOf(p, id)| < limit
    && forall other :: other in p.available ==> |QueueOf(p, id)| <= |QueueOf(p, other)|
  }

  predicate AnyBelow(p: Pool, limit: int)
    requires Known(p)
  {
    exists id :: id in p.available && |QueueOf(p, id)| < limit
  }

  /** The most recently freed set is taken. */
  function Taken(p: Pool, now: int): Pool
    requires p.free != [] && p.free[|p.free| - 1] in p.sets
  {
    var id := p.free[|p.free| - 1];
    Pool(p.free[..|p.free| - 1], p.available + {id}, p.sets[id := p.sets[id].(lastUsed := now)])
  }

  function Queued(p: Pool, id: nat, ch: nat): Pool
    requires id in p.sets
  {
    p.(sets := p.sets[id := p.sets[id].(waitQueue := QueueOf(p, id) + [ch])])
  }

  function Admitted(p: Pool, id: nat): Pool {
    p.(available := p.available + {id}, sets := p.sets[id := ContainerSet([], 0)])
  }

  /** Handing a set back: to the head of its queue if there is one, to the free pool otherwise. */
  function Released(p: Pool, id: nat): Pool
    requires id in p.sets
  {
    if QueueOf(p, id) != [] then p.(sets := p.sets[id := p.sets[id].(waitQueue := QueueOf(p, id)[1..])])
    else Pool(p.free + [id], p.available - {id}, p.sets)
  }

  predicate Idle(p: Pool, cur: int, id: nat)
    requires id in p.sets
  {
    cur - p.sets[id].lastUsed > ALLOW_IDLE_TIME
  }

  function Stay(p: Pool, cur: int, ids: seq<nat>): (s: seq<nat>)
    requires forall id :: id in ids ==> id in p.sets
  {
    if ids == [] then []
    else
      assert ids[|ids| - 1] in ids;
      Stay(p, cur, ids[..|ids| - 1]) + (if Idle(p, cur, ids[|ids| - 1]) then [] else [ids[|ids| - 1]])
  }

  function Go(p: Pool, cur: int, ids: seq<nat>): (s: seq<nat>)
    requires forall id :: id in ids ==> id in p.sets
  {
    if ids == [] then []
    else
      assert ids[|ids| - 1] in ids;
      Go(p, cur, ids[..|ids| - 1]) + (if Idle(p, cur, ids[|ids| - 1]) then [ids[|ids| - 1]] else [])
  }

  lemma LastCount(ids: seq<nat>, x: nat)
    requires ids != []
    ensures multiset(ids)[x] == multiset(ids[..|ids| - 1])[x] + (if ids[|ids| - 1] == x then 1 else 0)
  {
    assert ids == ids[..|ids| - 1] + [ids[|ids| - 1]];
  }

  /** A sweep removes exactly the sets idle for too long and keeps the others. */
  lemma {:induction false} SweepCounts(p: Pool, cur: int, ids: seq<nat>, x: nat)
    requires (forall id :: id in ids ==> id in p.sets) && x in p.sets
    ensures multiset(Stay(p, cur, ids))[x] == if cur - p.sets[x].lastUsed > 1200 then 0 else multiset(ids)[x]
    ensures multiset(Go(p, cur, ids))[x] == if cur - p.sets[x].lastUsed > 1200 then multiset(ids)[x] else 0
  {
    if ids != [] {
      SweepCounts(p, cur, ids[..|ids| - 1], x);
      LastCount(ids, x);
    }
  }

  /** `part` is what stands at the positions `at` of `whole`, in order. */
  ghost predicate Picks(part: seq<nat>, whole: seq<nat>, at: seq<nat>) {
    && |at| == |part|
    && (forall k :: 0 <= k < |at| ==> at[k] < |whole| && part[k] == whole[at[k]])
    && (forall k, l :: 0 <= k < l < |at| ==> at[k] < at[l])
  }

  /** `part` holds the sets among `ids` that have been unused for more than 1200 seconds, or those that have not, in
      the order of `ids`: `at` are their positions. */
  ghost predicate Sieved(p: Pool, cur: int, ids: seq<nat>, idle: bool, part: seq<nat>, at: seq<nat>)
    requires forall id :: id in ids ==> id in p.sets
  {
    && Picks(part, ids, at)
    && forall i: nat :: i < |ids| ==> (i in at <==> (cur - p.sets[ids[i]].lastUsed > 1200) == idle)
  }

  lemma SievedMore(p: Pool, cur: int, ids: seq<nat>, idle: bool, part: seq<nat>, at: seq<nat>, x: nat)
    requires (forall id :: id in ids ==> id in p.sets) && x in p.sets && Sieved(p, cur, ids, idle, part, at)
    ensures if (cur - p.sets[x].lastUsed > 1200) == idle then Sieved(p, cur, ids + [x], idle, part + [x], at + [|ids|])
            else Sieved(p, cur, ids + [x], idle, part, at)
  {
    assert forall k: nat :: k in at ==> k < |ids|;
  }

  /** A sweep parts the sets by the time they have been unused. */
  lemma {:induction false} SweepParts(p: Pool, cur: int, ids: seq<nat>) returns (gone: seq<nat>, stayed: seq<nat>)
    requires forall id :: id in ids ==> id in p.sets
    ensures Sieved(p, cur, ids, true, Go(p, cur, ids), gone) && Sieved(p, cur, ids, false, Stay(p, cur, ids), stayed)
  {
    gone, stayed := [], [];
    if ids != [] {
      var front, x := ids[..|ids| - 1], ids[|ids| - 1];
      assert x in ids && ids == front + [x];
      gone, stayed := SweepParts(p, cur, front);
      SievedMore(p, cur, front, true, Go(p, cur, front), gone, x);
      SievedMore(p, cur, front, false, Stay(p, cur, front), stayed, x);
      if Idle(p, cur, x) { gone := gone + [|front|]; } else { stayed := stayed + [|front|]; }
      assert Go(p, cur, front) + [] == Go(p, cur, front) && Stay(p, cur, front) + [] == Stay(p, cur, front);
    }
  }

  class AppResourceManager {
    var freeContainerPool: seq<nat>
    var availableContainerPool: set<nat>
    var sets: map<nat, ContainerSet>

    constructor ()
      ensures Contents() == Pool([], {}, map[])
    {
      freeContainerPool, availableContainerPool, sets := [], {}, map[];
    }

    ghost function Contents(): Pool
      reads this
    {
      Pool(freeContainerPool, availableContainerPool, sets)
    }

    /** The scan over the available pool, in whatever order the map is walked. */
    method FindShortest(limit: int) returns (found: bool, id: nat)
      requires Known(Contents())
      ensures found <==> AnyBelow(Contents(), limit)
      ensures found ==> Shortest(Contents(), limit, id)
    {
      found, id := false, 0;
      var rest, shortest := availableContainerPool, 0;
      while rest != {}
        invariant rest <= availableContainerPool
        invariant found ==> id in availableContainerPool && shortest == |sets[id].waitQueue| < limit
        invariant forall other :: other in availableContainerPool - rest ==>
          |sets[other].waitQueue| >= limit || (found && shortest <= |sets[other].waitQueue|)
        decreases |rest|
      {
        var next :| next in rest;
        var length := |sets[next].waitQueue|;
        if length < limit && (!found || length < shortest) {
          found, id, shortest := true, next, length;
        }
        rest := rest - {next};
      }
      if !found {
        assert forall other :: other in availableContainerPool ==> |QueueOf(Contents(), other)| >= limit;
      } else {
        assert |QueueOf(Contents(), id)| < limit;
      }
    }

    /** The critical section of a request. `newId` and `ch` are the random id and the new channel; `room`
        says whether the cluster has room. */
    method GetContainerSet(queueLength: int, now: int, newId: nat, ch: nat, room: bool) returns (g: Grant)
      requires Known(Contents())
      modifies this
      ensures old(freeContainerPool) != [] ==>
        g == Use(old(freeContainerPool)[|old(freeContainerPool)| - 1]) && Contents() == old(Taken(Contents(), now))
      ensures g.Use? ==>
        && old(freeContainerPool) == freeContainerPool + [g.id] && availableContainerPool == old(availableContainerPool) + {g.id}
        && sets == old(sets)[g.id := ContainerSet(old(sets)[g.id].waitQueue, now)]
      ensures old(freeContainerPool == [] && queueLength != 0 && AnyBelow(Contents(), queueLength)) ==>
        g.Wait? && g.ch == ch && old(Shortest(Contents(), queueLength, g.id)) && Contents() == Queued(old(Contents()), g.id, ch)
      ensures old(freeContainerPool == [] && !(queueLength != 0 && AnyBelow(Contents(), queueLength))) ==>
        (if room then g == Load(newId) && Contents() == old(Admitted(Contents(), newId))
         else g == Refused && Contents() == old(Contents()))
    {
      if |freeContainerPool| > 0 {
        var last := |freeContainerPool| - 1;
        var id := freeContainerPool[last];
        assert id in freeContainerPool;
        freeContainerPool := freeContainerPool[..last];
        availableContainerPool := availableContainerPool + {id};
        sets := sets[id := sets[id].(lastUsed := now)];
        return Use(id);
      }
      if queueLength != 0 && |availableContainerPool| > 0 {
        var found, id := FindShortest(queueLength);
        if found {
          sets := sets[id := sets[id].(waitQueue := sets[id].waitQueue + [ch])];
          return Wait(id, ch);
        }
      }
      if !room { return Refused; }
      availableContainerPool := availableContainerPool + {newId};
      sets := sets[newId := ContainerSet([], 0)];
      return Load(newId);
    }

    /** `baton` is the channel a value is sent on, if any. */
    method PutContainerSet(id: nat) returns (passed: bool, baton: nat)
      requires Known(Contents()) && id in sets
      modifies this
      ensures Contents() == old(Released(Contents(), id))
      ensures !passed ==>
        && freeContainerPool == old(freeContainerPool) + [id] && availableContainerPool == old(availableContainerPool) - {id}
        && sets == old(sets)
      ensures passed <==> old(sets[id].waitQueue) != []
      ensures passed ==> baton == old(sets[id].waitQueue)[0]
    {
      passed, baton := false, 0;
      if |sets[id].waitQueue| != 0 {
        passed, baton := true, sets[id].waitQueue[0];
        sets := sets[id := sets[id].(waitQueue := sets[id].waitQueue[1..])];
      } else {
        availableContainerPool := availableContainerPool - {id};
        freeContainerPool := freeContainerPool + [id];
      }
    }

    /** One sweep: it removes the free sets that have been unused for too long and keeps the others, both in order.
        The removed sets are destroyed and their resources returned afterwards. */
    method Recycle(cur: int) returns (remove: seq<nat>, ghost gone: seq<nat>, ghost stayed: seq<nat>)
      requires Known(Contents())
      modifies this`freeContainerPool
      ensures remove == old(Go(Contents(), cur, freeContainerPool))
      ensures freeContainerPool == old(Stay(Contents(), cur, freeContainerPool))
      ensures Sieved(old(Contents()), cur, old(freeContainerPool), true, remove, gone)
      ensures Sieved(old(Contents()), cur, old(freeContainerPool), false, freeContainerPool, stayed)
    {
      remove := [];
      var newContainerPool := [];
      ghost var p := Contents();
      for i := 0 to |freeContainerPool|
        invariant forall id :: id in freeContainerPool[..i] ==> id in sets
        invariant remove == Go(p, cur, freeContainerPool[..i])
        invariant newContainerPool == Stay(p, cur, freeContainerPool[..i])
      {
        var id := freeContainerPool[i];
        assert id in freeContainerPool && freeContainerPool[..i + 1][..i] == freeContainerPool[..i];
        if cur - sets[id].lastUsed > ALLOW_IDLE_TIME {
          remove := remove + [id];
        } else {
          newContainerPool := newContainerPool + [id];
        }
      }
      assert freeContainerPool[..|freeContainerPool|] == freeContainerPool;
      gone, stayed := SweepParts(p, cur, freeContainerPool);
      freeContainerPool := newContainerPool;
    }

    /** `LoadGraph` stamps the set it is about to load. */
    method Stamp(id: nat, now: int)
      requires id in sets
      modifies this`sets
      ensures sets == old(sets)[id := old(sets)[id].(lastUsed := now)]
    {
      sets := sets[id := sets[id].(lastUsed := now)];
    }
  }
}
