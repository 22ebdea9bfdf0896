/** The coordinator driving the protocol under an arbitrary scheduler. */
module Engine {
  import opened Graphs
  import opened Partitions
  import opened Sums
  import opened MinPropagation
  import opened PropagationSafety
  import opened PropagationReplicas
  import opened PropagationRuns
  import opened PropagationTermination

  /** A step that can be taken now. The protocol never gets stuck: until the round is over there is one. */
  method AnyEnabled(c: Config, s: State) returns (a: Action)
    requires ValidConfig(c) && Typed(c, s) && s.active != {} && !RoundOver(s)
    ensures Enabled(c, s, a)
  {
    for p: int := 0 to |c.rep|
      invariant forall q :: 0 <= q < p ==> s.workers[q].pc.Done?
    {
      match s.workers[p].pc
      case Waiting => return Dispatch(p);
      case Head => if s.workers[p].queue != [] { return Pop(p); } else { return Finish(p); }
      case Scan => return Check(p);
      case Try => return Cas(p);
      case Push => return Activate(p);
      case Emit => return Append(p);
      case Done =>
    }
    for r: int := 0 to c.replicas
      invariant forall q :: 0 <= q < r ==> s.net[q] == multiset{}
    {
      if s.net[r] != multiset{} {
        var m :| m in s.net[r];
        return Deliver(r, m);
      }
    }
    assert false;
  }

  lemma RoundStep(c: Config, s: State, a: Action, run: seq<State>)
    requires ValidConfig(c) && Inv(c, s) && Enabled(c, s, a) && OnRun(c, run, s)
    ensures Inv(c, Apply(c, s, a)) && Shrinks(c, s, Apply(c, s, a))
    ensures Apply(c, s, a).active == s.active && Apply(c, s, a).round == s.round
    ensures OnRun(c, run + [Apply(c, s, a)], Apply(c, s, a))
  {
    StepInv(c, s, a);
    RunOn(c, run, s, a);
  }

  lemma RoundEnd(c: Config, s: State, run: seq<State>)
    requires ValidConfig(c) && Inv(c, s) && RoundOver(s) && OnRun(c, run, s)
    ensures Inv(c, EndRound(c, s)) && AtBarrier(EndRound(c, s)) && EndRound(c, s).round == s.round + 1
    ensures OnRun(c, run + [EndRound(c, s)], EndRound(c, s))
  {
    EndRoundInv(c, s);
    OneStepOn(c, run, s, EndRound(c, s));
  }

  /** One round: dispatch, run every worker to completion, drain every stream, collect the replies.
      `pick` chooses the next step from the step count and the state; a choice that is not possible is
      replaced by one that is. */
  method DispatchRound(c: Config, pick: (nat, State) -> Action, s0: State, ghost run0: seq<State>)
    returns (s: State, ghost run: seq<State>)
    requires ValidConfig(c) && Inv(c, s0) && s0.active != {} && OnRun(c, run0, s0)
    ensures Inv(c, s) && AtBarrier(s) && s.round == s0.round + 1 && OnRun(c, run, s) && run0 <= run
  {
    s, run := s0, run0;
    var steps: nat := 0;
    while !RoundOver(s)
      invariant Inv(c, s) && s.active != {} && s.round == s0.round && OnRun(c, run, s) && run0 <= run
      decreases Heights(s), Sum(Debts(c, s)), Pace(c, s)
    {
      var a := pick(steps, s);
      if !Enabled(c, s, a) { a := AnyEnabled(c, s); }
      RoundStep(c, s, a, run);
      s, run := Apply(c, s, a), run + [Apply(c, s, a)];
      steps := steps + 1;
    }
    RoundEnd(c, s, run);
    s, run := EndRound(c, s), run + [EndRound(c, s)];
  }

  /** What the replicas hold at a barrier. */
  lemma BarrierValues(c: Config, s: State)
    requires ValidConfig(c) && Inv(c, s) && AtBarrier(s)
    ensures s.active == {} ==>
      forall r: nat, v: nat :: r < c.replicas && v < c.g.n ==> Least(c.g, c.init, v, s.vals[r][v])
    ensures forall r: nat, v: nat :: r < c.replicas && v < c.g.n ==>
      && Realized(c.g, c.init, v, s.vals[r][v])
      && UndercutsShort(c.g, c.init, v, s.vals[r][v], s.round)
  {
    if s.active == {} { ExitIsLeast(c, s); }
  }

  /** The coordinator's loop. It always ends, at a barrier of a run after as many rounds as the state counts, each
      started with something active, and never more than a positive round limit allows. Unless the limit cuts it
      short, it ends with an empty active set after at most `n` rounds, and every replica then holds the least prices. */
  method Coordinate(c: Config, roundLimit: int, pick: (nat, State) -> Action) returns (s: State, ghost run: seq<State>)
    requires ValidConfig(c)
    ensures OnRun(c, run, s) && s.round == RoundsEnded(run) && forall i: nat :: i + 1 < |run| ==> run[i].active != {}
    ensures 0 < roundLimit ==> s.round <= roundLimit
    ensures Typed(c, s) && AtBarrier(s) && s.round <= c.g.n
    ensures s.active == {} || (0 < roundLimit == s.round)
    ensures s.active == {} ==>
      forall r: nat, v: nat :: r < c.replicas && v < c.g.n ==> Least(c.g, c.init, v, s.vals[r][v])
    ensures forall r: nat, v: nat :: r < c.replicas && v < c.g.n ==>
      && Realized(c.g, c.init, v, s.vals[r][v])
      && UndercutsShort(c.g, c.init, v, s.vals[r][v], s.round)
  {
    InitialInv(c);
    s, run := Initial(c), [Initial(c)];
    var round := 0;
    while s.active != {}
      invariant Inv(c, s) && AtBarrier(s) && OnRun(c, run, s) && s.round == round
      invariant 0 < roundLimit ==> round <= roundLimit
      decreases c.g.n - s.round
    {
      round := round + 1;
      if 0 < roundLimit && roundLimit < round { break; }
      s, run := DispatchRound(c, pick, s, run);
    }
    RunCounts(c, run);
    RunActive(c, run);
    BarrierValues(c, s);
  }
}
