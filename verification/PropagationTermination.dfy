/** Every interleaving within a round is finite, and the activations of a whole run are paid for by
    falling values. */
module PropagationTermination {
  import opened Graphs
  import opened Partitions
  import opened Sums
  import opened Worklists
  import opened MinPropagation
  import opened PropagationSafety
  import opened PropagationRuns

  // ---- The measure: three sums compared lexicographically ----

  ghost function RowSums(vals: seq<seq<nat>>): (s: seq<nat>)
    ensures |s| == |vals|
  {
    seq(|vals|, r requires 0 <= r < |vals| => Sum(vals[r]))
  }

  /** Sum of all cells of all replicas. */
  ghost function Heights(s: State): nat { Sum(RowSums(s.vals)) }

  /** Steps a worker may still take on account of a value that has already fallen: its own CAS won, or
      another worker lowered the cell between its check and its CAS. */
  ghost function Debt(c: Config, s: State, p: nat): nat
    requires ValidConfig(c) && Typed(c, s) && p < |c.rep|
  {
    var w := s.workers[p];
    match w.pc
    case Try => if Cell(c, s, p, Target(c, w)) <= Offer(c, w) then 2 else 0
    case Push => 2
    case Emit => 1
    case _ => 0
  }

  ghost function Debts(c: Config, s: State): (d: seq<nat>)
    requires ValidConfig(c) && Typed(c, s)
    ensures |d| == |c.rep|
  {
    seq(|c.rep|, p requires 0 <= p < |c.rep| => Debt(c, s, p))
  }

  /** What is left of the edge scan a worker is in. */
  ghost function ScanCost(c: Config, w: Worker): nat
    requires ValidConfig(c) && (Busy(w) ==> w.x < c.g.n && w.i <= |c.g.out[w.x]|)
    requires OnEdge(w) ==> w.i < |c.g.out[w.x]|
  {
    match w.pc
    case Scan => 4 * (|c.g.out[w.x]| - w.i) + 1
    case Try => 4 * (|c.g.out[w.x]| - w.i)
    case Push => 4 * (|c.g.out[w.x]| - w.i) - 1
    case Emit => 4 * (|c.g.out[w.x]| - w.i) - 2
    case _ => 0
  }

  ghost function Load(c: Config, s: State, p: nat): nat
    requires ValidConfig(c) && Typed(c, s) && p < |c.rep|
  {
    var w := s.workers[p];
    match w.pc
    case Waiting => 2 + Sum(VertexCosts(c.g, ActiveList(c.parts.start[p], c.parts.size[p], s.active)))
    case Done => 0
    case _ => 1 + Sum(VertexCosts(c.g, w.queue)) + ScanCost(c, w)
  }

  ghost function Loads(c: Config, s: State): (d: seq<nat>)
    requires ValidConfig(c) && Typed(c, s)
    ensures |d| == |c.rep|
  {
    seq(|c.rep|, p requires 0 <= p < |c.rep| => Load(c, s, p))
  }

  ghost function Traffic(s: State): (d: seq<nat>)
    ensures |d| == |s.net|
  {
    seq(|s.net|, r requires 0 <= r < |s.net| => |s.net[r]|)
  }

  ghost function Pace(c: Config, s: State): nat
    requires ValidConfig(c) && Typed(c, s)
  {
    Sum(Loads(c, s)) + Sum(Traffic(s))
  }

  lemma LowerHeights(c: Config, s: State, r: nat, v: nat, y: nat)
    requires ValidConfig(c) && Typed(c, s) && r < c.replicas && v < c.g.n
    ensures y < s.vals[r][v] ==> Sum(RowSums(Lower(s.vals, r, v, y))) < Heights(s)
    ensures y >= s.vals[r][v] ==> Lower(s.vals, r, v, y) == s.vals
  {
    if y < s.vals[r][v] {
      SumUpdate(s.vals[r], v, y);
      var row: seq<nat> := s.vals[r][v := y];
      assert RowSums(Lower(s.vals, r, v, y)) == RowSums(s.vals)[r := Sum(row)];
      SumUpdate(RowSums(s.vals), r, Sum(row));
    }
  }

  /** A step by a worker that lowers nothing moves only that worker's debt and load. */
  lemma OwnDebt(c: Config, s: State, t: State, p: nat)
    requires ValidConfig(c) && Typed(c, s) && Typed(c, t) && p < |c.rep|
    requires t.vals == s.vals && t.workers == s.workers[p := t.workers[p]]
    ensures Sum(Debts(c, t)) == Sum(Debts(c, s)) - Debt(c, s, p) + Debt(c, t, p)
  {
    assert Debts(c, t) == Debts(c, s)[p := Debt(c, t, p)];
    SumUpdate(Debts(c, s), p, Debt(c, t, p));
  }

  lemma OwnLoad(c: Config, s: State, t: State, p: nat)
    requires ValidConfig(c) && Typed(c, s) && Typed(c, t) && p < |c.rep|
    requires t.active == s.active && t.workers == s.workers[p := t.workers[p]]
    ensures Sum(Loads(c, t)) == Sum(Loads(c, s)) - Load(c, s, p) + Load(c, t, p)
  {
    assert Loads(c, t) == Loads(c, s)[p := Load(c, t, p)];
    SumUpdate(Loads(c, s), p, Load(c, t, p));
  }

  ghost predicate Shrinks(c: Config, s: State, t: State)
    requires ValidConfig(c) && Typed(c, s) && Typed(c, t)
  {
    || Heights(t) < Heights(s)
    || (Heights(t) == Heights(s) && Sum(Debts(c, t)) < Sum(Debts(c, s)))
    || (Heights(t) == Heights(s) && Sum(Debts(c, t)) == Sum(Debts(c, s)) && Pace(c, t) < Pace(c, s))
  }

  lemma DeliverShrinks(c: Config, s: State, a: Action)
    requires ValidConfig(c) && Typed(c, s) && Enabled(c, s, a) && Typed(c, Apply(c, s, a)) && a.Deliver?
    ensures Shrinks(c, s, Apply(c, s, a))
  {
    var t := Apply(c, s, a);
    LowerHeights(c, s, a.r, a.m.v, a.m.y);
    if t.vals == s.vals {
      assert Debts(c, t) == Debts(c, s) && Loads(c, t) == Loads(c, s);
      assert |t.net[a.r]| == |s.net[a.r]| - 1;
      assert Traffic(t) == Traffic(s)[a.r := |t.net[a.r]|];
      SumUpdate(Traffic(s), a.r, |t.net[a.r]|);
    }
  }

  /** A CAS that lowers nothing had been charged already: another worker lowered the cell first. */
  lemma LostCasCosts(c: Config, s: State, a: Action)
    requires ValidConfig(c) && Typed(c, s) && Enabled(c, s, a) && Typed(c, Apply(c, s, a)) && a.Cas?
    requires Apply(c, s, a).vals == s.vals
    ensures Debt(c, Apply(c, s, a), a.p) <= Debt(c, s, a.p)
    ensures Load(c, Apply(c, s, a), a.p) < Load(c, s, a.p)
  {
  }

  /** A worker step that lowers nothing: the measure moves by that worker's own debt and load. */
  lemma OwnMoves(c: Config, s: State, a: Action)
    requires ValidConfig(c) && Typed(c, s) && Enabled(c, s, a) && Typed(c, Apply(c, s, a)) && !a.Deliver?
    requires Apply(c, s, a).vals == s.vals
    ensures Heights(Apply(c, s, a)) == Heights(s)
    ensures Sum(Debts(c, Apply(c, s, a))) == Sum(Debts(c, s)) - Debt(c, s, a.p) + Debt(c, Apply(c, s, a), a.p)
    ensures !a.Append? ==> Pace(c, Apply(c, s, a)) == Pace(c, s) - Load(c, s, a.p) + Load(c, Apply(c, s, a), a.p)
  {
    var t := Apply(c, s, a);
    OwnDebt(c, s, t, a.p);
    OwnLoad(c, s, t, a.p);
    if !a.Append? { assert Traffic(t) == Traffic(s); }
  }

  lemma CasShrinks(c: Config, s: State, a: Action)
    requires ValidConfig(c) && Typed(c, s) && Enabled(c, s, a) && Typed(c, Apply(c, s, a)) && a.Cas?
    ensures Shrinks(c, s, Apply(c, s, a))
  {
    LowerHeights(c, s, c.rep[a.p], Target(c, s.workers[a.p]), Offer(c, s.workers[a.p]));
    if Apply(c, s, a).vals == s.vals {
      LostCasCosts(c, s, a);
      OwnMoves(c, s, a);
    }
  }

  lemma PopShrinks(c: Config, s: State, p: nat)
    requires ValidConfig(c) && Typed(c, s) && Enabled(c, s, Pop(p)) && Typed(c, Apply(c, s, Pop(p)))
    ensures Load(c, Apply(c, s, Pop(p)), p) < Load(c, s, p)
  {
    PopCost(c.g, s.workers[p].queue);
  }

  /** A pop, check, dispatch or finish shortens the acting worker's own load. */
  lemma LoadShrinks(c: Config, s: State, a: Action)
    requires ValidConfig(c) && Typed(c, s) && Enabled(c, s, a) && Typed(c, Apply(c, s, a))
    requires a.Dispatch? || a.Pop? || a.Check? || a.Finish?
    ensures Load(c, Apply(c, s, a), a.p) < Load(c, s, a.p)
  {
    if a.Pop? { PopShrinks(c, s, a.p); }
  }

  /** An activation or an append works off the debt of an earlier fall; the other steps owe nothing. */
  lemma DebtFalls(c: Config, s: State, a: Action)
    requires ValidConfig(c) && Typed(c, s) && Enabled(c, s, a) && Typed(c, Apply(c, s, a))
    requires !a.Deliver? && !a.Cas?
    ensures if a.Activate? || a.Append? then Debt(c, Apply(c, s, a), a.p) < Debt(c, s, a.p)
            else Debt(c, Apply(c, s, a), a.p) == Debt(c, s, a.p)
  {
  }

  /** In-round termination: every step of a worker or of the network shrinks the measure. */
  lemma StepShrinks(c: Config, s: State, a: Action)
    requires ValidConfig(c) && Typed(c, s) && Enabled(c, s, a)
    ensures Typed(c, Apply(c, s, a)) && Shrinks(c, s, Apply(c, s, a))
  {
    StepTyped(c, s, a);
    match a
    case Deliver(_, _) => DeliverShrinks(c, s, a);
    case Cas(_) => CasShrinks(c, s, a);
    case _ =>
      DebtFalls(c, s, a);
      OwnMoves(c, s, a);
      if !a.Activate? && !a.Append? { LoadShrinks(c, s, a); }
  }

  // ---- Each activation is charged to a fall of some value ----

  /** Worker `p` is going to activate because a value has already fallen. */
  ghost function Owed(c: Config, s: State, p: nat): nat
    requires ValidConfig(c) && Typed(c, s) && p < |c.rep|
  {
    if Debt(c, s, p) == 2 then 1 else 0
  }

  ghost function AllOwed(c: Config, s: State): (d: seq<nat>)
    requires ValidConfig(c) && Typed(c, s)
    ensures |d| == |c.rep|
  {
    seq(|c.rep|, p requires 0 <= p < |c.rep| => Owed(c, s, p))
  }

  /** Activations still owed, plus one per worker for every unit the cells can still fall. */
  ghost function Credit(c: Config, s: State): nat
    requires ValidConfig(c) && Typed(c, s)
  {
    Sum(AllOwed(c, s)) + |c.rep| * Heights(s)
  }

  ghost predicate ActivatesAt(s: State, t: State) {
    exists p: nat :: p < |s.workers| && p < |t.workers| && s.workers[p].pc.Push? && t.workers[p].pc.Emit?
  }

  lemma {:induction false} MulFall(k: nat, h: nat, l: nat)
    requires l < h
    ensures k * l + k <= k * h
  {
    assert k * h == k * (h - 1) + k;
    if l + 1 < h { MulFall(k, h - 1, l); }
  }

  /** When some value falls, the fall pays for every worker at once. */
  lemma FallPays(c: Config, s: State, t: State)
    requires ValidConfig(c) && Typed(c, s) && Typed(c, t) && Heights(t) < Heights(s)
    ensures Credit(c, t) <= Credit(c, s)
  {
    SumBound(AllOwed(c, t), 1);
    MulFall(|c.rep|, Heights(s), Heights(t));
  }

  /** A step that lowers nothing leaves the other workers' debts alone. */
  lemma OwnOwed(c: Config, s: State, t: State, p: nat)
    requires ValidConfig(c) && Typed(c, s) && Typed(c, t) && p < |c.rep|
    requires t.vals == s.vals && t.workers == s.workers[p := t.workers[p]]
    ensures Credit(c, t) == Credit(c, s) - Owed(c, s, p) + Owed(c, t, p)
  {
    assert AllOwed(c, t) == AllOwed(c, s)[p := Owed(c, t, p)];
    SumUpdate(AllOwed(c, s), p, Owed(c, t, p));
  }

  lemma DeliverPays(c: Config, s: State, a: Action)
    requires ValidConfig(c) && Typed(c, s) && Enabled(c, s, a) && Typed(c, Apply(c, s, a)) && a.Deliver?
    ensures Credit(c, Apply(c, s, a)) <= Credit(c, s)
  {
    var t := Apply(c, s, a);
    LowerHeights(c, s, a.r, a.m.v, a.m.y);
    if t.vals == s.vals {
      assert AllOwed(c, t) == AllOwed(c, s);
    } else {
      FallPays(c, s, t);
    }
  }

  lemma CasPays(c: Config, s: State, a: Action)
    requires ValidConfig(c) && Typed(c, s) && Enabled(c, s, a) && Typed(c, Apply(c, s, a)) && a.Cas?
    ensures Credit(c, Apply(c, s, a)) <= Credit(c, s)
  {
    var t := Apply(c, s, a);
    LowerHeights(c, s, c.rep[a.p], Target(c, s.workers[a.p]), Offer(c, s.workers[a.p]));
    if t.vals == s.vals {
      OwnOwed(c, s, t, a.p);
    } else {
      FallPays(c, s, t);
    }
  }

  lemma StepPays(c: Config, s: State, a: Action)
    requires ValidConfig(c) && Typed(c, s) && Enabled(c, s, a)
    ensures Typed(c, Apply(c, s, a))
    ensures Credit(c, Apply(c, s, a)) + (if a.Activate? then 1 else 0) <= Credit(c, s)
  {
    StepTyped(c, s, a);
    if a.Cas? {
      CasPays(c, s, a);
    } else if a.Deliver? {
      DeliverPays(c, s, a);
    } else {
      OwnOwed(c, s, Apply(c, s, a), a.p);
    }
  }

  lemma OnlyActivateActivates(c: Config, s: State, a: Action)
    requires ValidConfig(c) && Typed(c, s) && Enabled(c, s, a)
    ensures ActivatesAt(s, Apply(c, s, a)) ==> a.Activate?
  {
  }

  ghost function Activations(tr: seq<State>): nat {
    if |tr| <= 1 then 0
    else Activations(tr[..|tr| - 1]) + (if ActivatesAt(tr[|tr| - 2], tr[|tr| - 1]) then 1 else 0)
  }

  lemma NextPays(c: Config, s: State, t: State)
    requires ValidConfig(c) && Typed(c, s) && Next(c, s, t)
    ensures Typed(c, t)
    ensures Credit(c, t) + (if ActivatesAt(s, t) then 1 else 0) <= Credit(c, s)
  {
    if a :| Enabled(c, s, a) && t == Apply(c, s, a) {
      StepPays(c, s, a);
      OnlyActivateActivates(c, s, a);
    } else {
      EndRoundTyped(c, s);
      assert AllOwed(c, t) == AllOwed(c, s);
      assert RowSums(t.vals) == RowSums(s.vals);
    }
  }

  /** Over a whole run, however many rounds: the activations made so far are at most the number of
      workers times the total amount by which the cells have fallen. */
  lemma {:induction false} ActivationsArePaidFor(c: Config, tr: seq<State>)
    requires ValidConfig(c) && Run(c, tr)
    ensures Typed(c, tr[|tr| - 1])
    ensures Activations(tr) + Credit(c, tr[|tr| - 1]) <= |c.rep| * Heights(Initial(c))
  {
    var last := |tr| - 1;
    if last == 0 {
      InitialInv(c);
      var s := Initial(c);
      SumBound(AllOwed(c, s), 0);
    } else {
      var shorter := tr[..last];
      ActivationsArePaidFor(c, shorter);
      assert Steps(c, tr[last - 1], tr[(last - 1) + 1]);
      NextPays(c, tr[last - 1], tr[last]);
    }
  }

  // ---- Runs go on ----

  /** Any step continues a run and shrinks the measure of its round. */
  lemma RunOn(c: Config, tr: seq<State>, s: State, a: Action)
    requires ValidConfig(c) && OnRun(c, tr, s) && Typed(c, s) && Enabled(c, s, a)
    ensures Typed(c, Apply(c, s, a)) && OnRun(c, tr + [Apply(c, s, a)], Apply(c, s, a))
    ensures Shrinks(c, s, Apply(c, s, a))
  {
    StepShrinks(c, s, a);
    OneStepOn(c, tr, s, Apply(c, s, a));
  }
}
