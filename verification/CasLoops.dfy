/** Concurrent load / compare / swap retry loops on one cell, and the atomic operations they stand for.

    `op(seen, arg)` is what a caller computes from the value it loaded: nothing to store, or a new value.
    `minCas` stores its argument when the cell is above it; `floatAdd` always stores the sum. */
module CasLoops {
  datatype Option<T> = None | Some(value: T)

  /** Where a caller is: before its load; holding a loaded value it will try to replace; returned. */
  datatype Pc<V> = Idle | Loaded(seen: V) | Returned(ok: bool)

  /** `since` records how many calls had returned when the value was loaded. */
  datatype Caller<V, A> = Caller(arg: A, pc: Pc<V>, since: nat)

  datatype Entry<A> = Entry(who: nat, arg: A, ok: bool)

  /** `log` records the calls that have returned, in the order they did. */
  datatype State<V, A> = State(cell: V, callers: seq<Caller<V, A>>, log: seq<Entry<A>>)

  function Start<V, A>(cell: V, args: seq<A>): State<V, A> {
    State(cell, seq(|args|, i requires 0 <= i < |args| => Caller(args[i], Idle, 0)), [])
  }

  function Return<V, A>(s: State<V, A>, i: nat, cell: V, ok: bool): State<V, A>
    requires i < |s.callers|
  {
    State(cell, s.callers[i := s.callers[i].(pc := Returned(ok))], s.log + [Entry(i, s.callers[i].arg, ok)])
  }

  /** One atomic access of caller `i`: the load, or the compare-and-swap. */
  function Step<V(==), A>(op: (V, A) -> Option<V>, s: State<V, A>, i: nat): State<V, A>
    requires i < |s.callers|
  {
    var c := s.callers[i];
    match c.pc
    case Idle =>
      if op(s.cell, c.arg).None? then Return(s, i, s.cell, false)
      else s.(callers := s.callers[i := c.(pc := Loaded(s.cell), since := |s.log|)])
    case Loaded(seen) =>
      if s.cell == seen && op(seen, c.arg).Some? then Return(s, i, op(seen, c.arg).value, true)
      else s.(callers := s.callers[i := c.(pc := Idle)])
    case Returned(_) => s
  }

  ghost function Execute<V, A>(op: (V, A) -> Option<V>, s: State<V, A>, schedule: seq<nat>): State<V, A>
    requires forall k :: 0 <= k < |schedule| ==> schedule[k] < |s.callers|
    ensures |Execute(op, s, schedule).callers| == |s.callers|
    decreases |schedule|
  {
    if schedule == [] then s
    else Step(op, Execute(op, s, schedule[..|schedule| - 1]), schedule[|schedule| - 1])
  }

  // ---- The atomic operation ----

  function Atomic<V, A>(op: (V, A) -> Option<V>, cell: V, arg: A): V {
    match op(cell, arg) case None => cell case Some(v) => v
  }

  /** The cell after the logged calls, each taken as one atomic operation. */
  ghost function Replay<V, A>(op: (V, A) -> Option<V>, cell: V, log: seq<Entry<A>>): V {
    if log == [] then cell
    else Atomic(op, Replay(op, cell, log[..|log| - 1]), log[|log| - 1].arg)
  }

  /** Each logged call returned what the atomic operation would have returned at its place in the log. */
  ghost predicate Faithful<V, A>(op: (V, A) -> Option<V>, cell: V, log: seq<Entry<A>>) {
    forall k :: 0 <= k < |log| ==> (log[k].ok <==> op(Replay(op, cell, log[..k]), log[k].arg).Some?)
  }

  ghost predicate Logged<V, A>(s: State<V, A>, i: nat) {
    exists k :: 0 <= k < |s.log| && s.log[k].who == i
  }

  /** The log holds exactly the returned callers, once each, with their arguments and results. */
  ghost predicate LogMatches<V, A>(s: State<V, A>) {
    && (forall k :: 0 <= k < |s.log| ==>
          s.log[k].who < |s.callers| && s.callers[s.log[k].who].pc == Returned(s.log[k].ok) &&
          s.callers[s.log[k].who].arg == s.log[k].arg)
    && (forall i :: 0 <= i < |s.callers| && s.callers[i].pc.Returned? ==> Logged(s, i))
    && (forall j, k :: 0 <= j < k < |s.log| ==> s.log[j].who != s.log[k].who)
  }

  /** Some call that returned true did so after the first `since` returns. */
  ghost predicate StoredSince<V, A>(s: State<V, A>, since: nat) {
    exists k :: since <= k < |s.log| && s.log[k].ok
  }

  /** A caller whose loaded value is out of date was overtaken by a call that stored. */
  ghost predicate Overtaken<V, A>(s: State<V, A>) {
    forall i :: 0 <= i < |s.callers| && s.callers[i].pc.Loaded? ==>
      s.callers[i].since <= |s.log| && (s.cell != s.callers[i].pc.seen ==> StoredSince(s, s.callers[i].since))
  }

  /** A value is loaded only to be replaced. */
  ghost predicate WillStore<V, A>(op: (V, A) -> Option<V>, s: State<V, A>) {
    forall i :: 0 <= i < |s.callers| && s.callers[i].pc.Loaded? ==> op(s.callers[i].pc.seen, s.callers[i].arg).Some?
  }

  ghost predicate Inv<V, A>(op: (V, A) -> Option<V>, cell: V, s: State<V, A>) {
    && s.cell == Replay(op, cell, s.log)
    && Faithful(op, cell, s.log)
    && LogMatches(s) && Overtaken(s) && WillStore(op, s)
  }

  lemma ReturnLinear<V, A>(op: (V, A) -> Option<V>, cell: V, s: State<V, A>, i: nat, ok: bool)
    requires i < |s.callers| && s.cell == Replay(op, cell, s.log) && Faithful(op, cell, s.log)
    requires ok <==> op(s.cell, s.callers[i].arg).Some?
    ensures var t := Return(s, i, Atomic(op, s.cell, s.callers[i].arg), ok);
      t.cell == Replay(op, cell, t.log) && Faithful(op, cell, t.log)
  {
    var t := Return(s, i, Atomic(op, s.cell, s.callers[i].arg), ok);
    assert t.log[..|t.log| - 1] == s.log;
    forall k | 0 <= k < |t.log|
      ensures t.log[k].ok <==> op(Replay(op, cell, t.log[..k]), t.log[k].arg).Some?
    {
      if k < |s.log| { assert t.log[..k] == s.log[..k]; }
    }
  }

  lemma ReturnMatches<V, A>(s: State<V, A>, i: nat, v: V, ok: bool)
    requires i < |s.callers| && !s.callers[i].pc.Returned? && LogMatches(s)
    ensures LogMatches(Return(s, i, v, ok))
  {
    var t := Return(s, i, v, ok);
    forall j | 0 <= j < |t.callers| && t.callers[j].pc.Returned?
      ensures Logged(t, j)
    {
      if j == i {
        assert t.log[|s.log|].who == i;
      } else {
        var k :| 0 <= k < |s.log| && s.log[k].who == j;
        assert t.log[k].who == j;
      }
    }
  }

  lemma ReturnOvertakes<V, A>(s: State<V, A>, i: nat, v: V, ok: bool)
    requires i < |s.callers| && Overtaken(s) && (!ok ==> v == s.cell)
    ensures Overtaken(Return(s, i, v, ok))
  {
    var t := Return(s, i, v, ok);
    forall j | 0 <= j < |t.callers| && t.callers[j].pc.Loaded? && t.cell != t.callers[j].pc.seen
      ensures StoredSince(t, t.callers[j].since)
    {
      if ok {
        assert t.log[|s.log|].ok;
      } else {
        var k :| s.callers[j].since <= k < |s.log| && s.log[k].ok;
        assert t.log[k].ok;
      }
    }
  }

  /** A load, or a swap that fails: only the caller moves. */
  lemma LocalStepInv<V, A>(op: (V, A) -> Option<V>, cell: V, s: State<V, A>, i: nat, c: Caller<V, A>)
    requires i < |s.callers| && Inv(op, cell, s) && !s.callers[i].pc.Returned?
    requires c.arg == s.callers[i].arg
    requires c.pc.Idle? || (c.pc == Loaded(s.cell) && c.since == |s.log| && op(s.cell, c.arg).Some?)
    ensures Inv(op, cell, s.(callers := s.callers[i := c]))
  {
    var t := s.(callers := s.callers[i := c]);
    forall j | 0 <= j < |t.callers| && t.callers[j].pc.Returned?
      ensures Logged(t, j)
    {
      assert Logged(s, j);
    }
    forall j | 0 <= j < |t.callers| && t.callers[j].pc.Loaded? && t.cell != t.callers[j].pc.seen
      ensures StoredSince(t, t.callers[j].since)
    {
      assert StoredSince(s, s.callers[j].since);
    }
  }

  lemma ReturnInv<V, A>(op: (V, A) -> Option<V>, cell: V, s: State<V, A>, i: nat, v: V, ok: bool)
    requires i < |s.callers| && Inv(op, cell, s) && !s.callers[i].pc.Returned?
    requires ok <==> op(s.cell, s.callers[i].arg).Some?
    requires v == Atomic(op, s.cell, s.callers[i].arg)
    ensures Inv(op, cell, Return(s, i, v, ok))
  {
    ReturnLinear(op, cell, s, i, ok);
    ReturnMatches(s, i, v, ok);
    ReturnOvertakes(s, i, v, ok);
    assert WillStore(op, Return(s, i, v, ok));
  }

  lemma StepInv<V, A>(op: (V, A) -> Option<V>, cell: V, s: State<V, A>, i: nat)
    requires i < |s.callers| && Inv(op, cell, s)
    ensures Inv(op, cell, Step(op, s, i))
  {
    var c := s.callers[i];
    match c.pc
    case Idle =>
      if op(s.cell, c.arg).None? {
        ReturnInv(op, cell, s, i, s.cell, false);
      } else {
        LocalStepInv(op, cell, s, i, c.(pc := Loaded(s.cell), since := |s.log|));
      }
    case Loaded(seen) =>
      if s.cell == seen {
        ReturnInv(op, cell, s, i, op(seen, c.arg).value, true);
      } else {
        LocalStepInv(op, cell, s, i, c.(pc := Idle));
      }
    case Returned(_) =>
  }

  lemma {:induction false} ExecuteInv<V, A>(op: (V, A) -> Option<V>, cell: V, args: seq<A>, schedule: seq<nat>)
    requires forall k :: 0 <= k < |schedule| ==> schedule[k] < |args|
    ensures Inv(op, cell, Execute(op, Start(cell, args), schedule))
  {
    if schedule != [] {
      ExecuteInv(op, cell, args, schedule[..|schedule| - 1]);
      StepInv(op, cell, Execute(op, Start(cell, args), schedule[..|schedule| - 1]), schedule[|schedule| - 1]);
    }
  }

  /** Refinement: in every interleaving, the calls that have returned had the effect and the results of
      atomic operations performed in the order of the log. */
  lemma Linearizable<V, A>(op: (V, A) -> Option<V>, cell: V, args: seq<A>, schedule: seq<nat>)
    requires forall k :: 0 <= k < |schedule| ==> schedule[k] < |args|
    ensures var s := Execute(op, Start(cell, args), schedule);
      s.cell == Replay(op, cell, s.log) && Faithful(op, cell, s.log) && LogMatches(s)
  {
    ExecuteInv(op, cell, args, schedule);
  }

  /** A swap fails only because another call stored after this caller's load. */
  lemma FailedSwapWasOvertaken<V, A>(op: (V, A) -> Option<V>, cell: V, args: seq<A>, schedule: seq<nat>, i: nat)
    requires forall k :: 0 <= k < |schedule| ==> schedule[k] < |args|
    requires i < |args|
    ensures var s := Execute(op, Start(cell, args), schedule);
      s.callers[i].pc.Loaded? && Step(op, s, i).callers[i].pc == Idle ==>
      exists k :: s.callers[i].since <= k < |s.log| && s.log[k].ok && s.log[k].who != i
  {
    ExecuteInv(op, cell, args, schedule);
    var s := Execute(op, Start(cell, args), schedule);
    if s.callers[i].pc.Loaded? && Step(op, s, i).callers[i].pc == Idle {
      assert s.cell != s.callers[i].pc.seen;
      var k :| s.callers[i].since <= k < |s.log| && s.log[k].ok;
      assert s.log[k].who != i;
    }
  }

  // ---- minCas ----

  const MIN_OP: (nat, nat) -> Option<nat> := (cell, val) => if cell <= val then None else Some(val)

  /** The least of the initial value and the arguments of the logged calls. */
  ghost predicate IsMinOf(m: nat, cell: nat, log: seq<Entry<nat>>) {
    && m <= cell && (forall k :: 0 <= k < |log| ==> m <= log[k].arg)
    && (m == cell || exists k :: 0 <= k < |log| && m == log[k].arg)
  }

  lemma {:induction false} ReplayMin(cell: nat, log: seq<Entry<nat>>)
    ensures IsMinOf(Replay(MIN_OP, cell, log), cell, log)
  {
    if log != [] {
      var last := |log| - 1;
      ReplayMin(cell, log[..last]);
      var m := Replay(MIN_OP, cell, log[..last]);
      if m != cell {
        var k :| 0 <= k < last && m == log[..last][k].arg;
        assert m == log[k].arg;
      }
      assert forall k :: 0 <= k < last ==> log[..last][k] == log[k];
      assert Replay(MIN_OP, cell, log) == if log[last].arg < m then log[last].arg else m;
    }
  }

  lemma StoresAreFalls(cell: nat, log: seq<Entry<nat>>, k: nat)
    requires k < |log| && Faithful(MIN_OP, cell, log)
    ensures log[k].ok <==> Replay(MIN_OP, cell, log[..k + 1]) < Replay(MIN_OP, cell, log[..k])
  {
    assert log[..k + 1][..k] == log[..k];
  }

  /** Any number of concurrent `minCas` callers: the cell is the minimum of its initial value and the
      arguments of the returned calls, and exactly the calls that strictly lowered it returned true. */
  lemma MinCasCorrect(cell: nat, args: seq<nat>, schedule: seq<nat>)
    requires forall k :: 0 <= k < |schedule| ==> schedule[k] < |args|
    ensures var s := Execute(MIN_OP, Start(cell, args), schedule);
      && LogMatches(s) && IsMinOf(s.cell, cell, s.log)
      && (forall k :: 0 <= k < |s.log| ==>
            (s.log[k].ok <==> Replay(MIN_OP, cell, s.log[..k + 1]) < Replay(MIN_OP, cell, s.log[..k])))
  {
    ExecuteInv(MIN_OP, cell, args, schedule);
    var s := Execute(MIN_OP, Start(cell, args), schedule);
    ReplayMin(cell, s.log);
    forall k | 0 <= k < |s.log|
      ensures s.log[k].ok <==> Replay(MIN_OP, cell, s.log[..k + 1]) < Replay(MIN_OP, cell, s.log[..k])
    {
      StoresAreFalls(cell, s.log, k);
    }
  }

  // ---- floatAdd, over the reals ----

  const ADD_OP: (real, real) -> Option<real> := (cell, val) => Some(cell + val)

  ghost function Total(log: seq<Entry<real>>): real {
    if log == [] then 0.0 else Total(log[..|log| - 1]) + log[|log| - 1].arg
  }

  lemma {:induction false} ReplayAdd(cell: real, log: seq<Entry<real>>)
    ensures Replay(ADD_OP, cell, log) == cell + Total(log)
  {
    if log != [] { ReplayAdd(cell, log[..|log| - 1]); }
  }

  /** Any number of concurrent `floatAdd` callers: no addend is lost or counted twice, and every call
      returns true. */
  lemma FloatAddCorrect(cell: real, args: seq<real>, schedule: seq<nat>)
    requires forall k :: 0 <= k < |schedule| ==> schedule[k] < |args|
    ensures var s := Execute(ADD_OP, Start(cell, args), schedule);
      && LogMatches(s) && s.cell == cell + Total(s.log)
      && (forall k :: 0 <= k < |s.log| ==> s.log[k].ok)
  {
    ExecuteInv(ADD_OP, cell, args, schedule);
    ReplayAdd(cell, Execute(ADD_OP, Start(cell, args), schedule).log);
  }
}
