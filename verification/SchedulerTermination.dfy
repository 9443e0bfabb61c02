/**
 The scheduler cannot deadlock and cannot run forever. A transition is enabled in every state that
 is not final, and every transition lowers a weight in which a launch costs more than everything its
 completion may launch in turn, since children come strictly later in the order.
 */
module SchedulerTermination {
  import opened Steps
  import opened Scheduler
  import opened SchedulerInvariant

  // ---------------------------------------------------------------- progress

  ghost predicate Quiet(s: State) {
    forall k :: 0 <= k < |s.gos| ==> s.gos[k].phase == Done
  }

  /** As long as a goroutine is not done, some goroutine can move, whatever the sweep does. */
  lemma GoroutineCanMove(p: Plan, s: State) returns (a: Action)
    requires p.Keyed() && p.Linked() && NamesKnown(p, s) && !Quiet(s)
    ensures Enabled(p, s, a) && !a.Sweep? && !a.CancelContext?
  {
    if k :| 0 <= k < |s.gos| && s.gos[k].HoldsSlot() {
      var n := s.gos[k].step;
      match s.gos[k].phase
      case Holding => a := Decide(k);
      case Cleared => a := Proceed(k);
      case Skipping => a := Finish(k, SkippedResult(n));
      case Canceling => a := Finish(k, CanceledResult(n));
      case Executing => a := Finish(k, StepResult(n, Success, 0, ""));
      case Launching(ready) => a := if ready == [] then Release(k) else LaunchChild(k);
    } else {
      var k :| 0 <= k < |s.gos| && s.gos[k].phase != Done;
      assert s.SlotHolders() == {};
      a := Acquire(k);
    }
  }

  lemma NoDeadlock(p: Plan, s: State) returns (a: Action)
    requires Inv(p, s) && !s.Final(p)
    ensures Enabled(p, s, a) && !a.CancelContext?
  {
    if !Quiet(s) {
      a := GoroutineCanMove(p, s);
    } else {
      a := Sweep;
    }
  }

  // ---------------------------------------------------------------- weights

  /** Bounds on the length of the children and dependency lists of the first `k` steps. */
  function MaxChildren(p: Plan, k: nat): nat
    requires k <= |p.order|
  {
    if k == 0 then 0
    else
      var n := p.order[k - 1];
      var here := if n in p.children then |p.children[n]| else 0;
      if here > MaxChildren(p, k - 1) then here else MaxChildren(p, k - 1)
  }

  function MaxDeps(p: Plan, k: nat): nat
    requires k <= |p.order|
  {
    if k == 0 then 0
    else
      var n := p.order[k - 1];
      var here := if n in p.deps then |p.deps[n]| else 0;
      if here > MaxDeps(p, k - 1) then here else MaxDeps(p, k - 1)
  }

  lemma {:induction false} ListsBounded(p: Plan, k: nat, i: nat)
    requires i < k <= |p.order| && p.order[i] in p.children && p.order[i] in p.deps
    ensures |p.children[p.order[i]]| <= MaxChildren(p, k)
    ensures |p.deps[p.order[i]]| <= MaxDeps(p, k)
  {
    if i < k - 1 {
      ListsBounded(p, k - 1, i);
    }
  }

  /** The cost of launching a step with `r` steps from it to the end of the order. */
  function LaunchCost(width: nat, r: nat): nat {
    if r == 0 then 8 else 8 + width * (LaunchCost(width, r - 1) + 1)
  }

  lemma {:induction false} LaunchCostGrows(width: nat, q: nat, r: nat)
    requires q <= r
    ensures LaunchCost(width, q) <= LaunchCost(width, r)
  {
    if q < r {
      LaunchCostGrows(width, q, r - 1);
      LaunchCostStep(width, r);
    }
  }

  lemma {:induction false} LaunchCostStep(width: nat, r: nat)
    requires r > 0
    ensures LaunchCost(width, r - 1) <= LaunchCost(width, r)
  {
    if r > 1 {
      LaunchCostStep(width, r - 1);
      Scale(width, LaunchCost(width, r - 2) + 1, LaunchCost(width, r - 1) + 1);
    }
  }

  lemma Scale(w: nat, x: nat, y: nat)
    requires x <= y
    ensures w * x <= w * y
  {
  }

  function Width(p: Plan): nat {
    MaxChildren(p, |p.order|)
  }

  /** How many steps there are from `n` to the end of the order. */
  function Rank(p: Plan, n: string): nat {
    if n in p.pos && p.pos[n] < |p.order| then |p.order| - p.pos[n] else 0
  }

  function StepCost(p: Plan, n: string): nat {
    LaunchCost(Width(p), Rank(p, n))
  }

  function ReadyCost(p: Plan, ready: seq<string>): nat {
    if ready == [] then 0 else StepCost(p, ready[0]) + 1 + ReadyCost(p, ready[1..])
  }

  function Weight(p: Plan, g: Goroutine): nat {
    match g.phase
    case Waiting => StepCost(p, g.step)
    case Holding => CostAtLeast(p, g.step); StepCost(p, g.step) - 1
    case Cleared => CostAtLeast(p, g.step); StepCost(p, g.step) - 2
    case Skipping => CostAtLeast(p, g.step); StepCost(p, g.step) - 2
    case Canceling => CostAtLeast(p, g.step); StepCost(p, g.step) - 3
    case Executing => CostAtLeast(p, g.step); StepCost(p, g.step) - 3
    case Launching(ready) => 1 + ReadyCost(p, ready)
    case Done => 0
  }

  lemma CostAtLeast(p: Plan, n: string)
    ensures StepCost(p, n) >= 8
  {
  }

  function TotalWeight(p: Plan, gos: seq<Goroutine>): nat {
    if gos == [] then 0 else TotalWeight(p, gos[..|gos| - 1]) + Weight(p, gos[|gos| - 1])
  }

  function SweepWeight(p: Plan, i: nat, j: nat): int {
    (|p.listing| - i) * SweepUnit(p) - j
  }

  function SweepUnit(p: Plan): nat {
    MaxDeps(p, |p.order|) + 2 + LaunchCost(Width(p), |p.order|)
  }

  function Measure(p: Plan, s: State): int {
    TotalWeight(p, s.gos) + SweepWeight(p, s.i, s.j) + if s.ctxDone then 0 else 1
  }

  lemma {:induction false} TotalUpdate(p: Plan, gos: seq<Goroutine>, k: nat, g: Goroutine)
    requires k < |gos|
    ensures TotalWeight(p, gos[k := g]) + Weight(p, gos[k]) == TotalWeight(p, gos) + Weight(p, g)
  {
    hide Weight;
    var last := |gos| - 1;
    if k < last {
      TotalUpdate(p, gos[..last], k, g);
      assert gos[k := g][..last] == gos[..last][k := g];
    } else {
      assert gos[k := g][..last] == gos[..last];
    }
  }

  lemma TotalAppend(p: Plan, gos: seq<Goroutine>, g: Goroutine)
    ensures TotalWeight(p, gos + [g]) == TotalWeight(p, gos) + Weight(p, g)
  {
    hide Weight;
    assert (gos + [g])[..|gos|] == gos;
  }

  lemma {:induction false} ReadyCostBound(p: Plan, ready: seq<string>, r: nat)
    requires forall c :: c in ready ==> Rank(p, c) <= r
    ensures ReadyCost(p, ready) <= |ready| * (LaunchCost(Width(p), r) + 1)
  {
    hide LaunchCost, Width, Rank;
    if ready != [] {
      assert ready[0] in ready;
      LaunchCostGrows(Width(p), Rank(p, ready[0]), r);
      ReadyCostBound(p, ready[1..], r);
      Distribute(|ready|, LaunchCost(Width(p), r) + 1);
    }
  }

  lemma Distribute(n: nat, w: int)
    requires n > 0
    ensures n * w == (n - 1) * w + w
  {
  }

  lemma {:induction false} ReadyShorter(cs: seq<string>, deps: map<string, seq<string>>, results: map<string, StepResult>)
    requires forall c :: c in cs ==> c in deps
    ensures |Ready(cs, deps, results)| <= |cs|
  {
    if cs != [] {
      ReadyShorter(cs[..|cs| - 1], deps, results);
    }
  }

  /** Everything a completion launches costs less than the launch it completes. */
  lemma ChildrenCostLess(p: Plan, n: string, results: map<string, StepResult>)
    requires p.Valid() && n in p.pos
    requires forall c :: c in p.children[n] ==> c in p.deps
    ensures ReadyCost(p, Ready(p.children[n], p.deps, results)) <= StepCost(p, n) - 8
  {
    hide LaunchCost, Width, Rank, Ready, ReadyCost, DepsSet, Plan.Sorted, Plan.Linked;
    var ready := Ready(p.children[n], p.deps, results);
    var r := Rank(p, n);
    ReadyMember(p.children[n], p.deps, results);
    ReadyShorter(p.children[n], p.deps, results);
    ChildrenLater(p, n);
    ReadyCostBound(p, ready, r - 1);
    ScaleLeft(|ready|, Width(p), LaunchCost(Width(p), r - 1) + 1);
    LaunchCostUnfold(Width(p), r);
  }

  lemma LaunchCostUnfold(width: nat, r: nat)
    requires r > 0
    ensures LaunchCost(width, r) == 8 + width * (LaunchCost(width, r - 1) + 1)
  {
  }

  lemma ChildrenLater(p: Plan, n: string)
    requires p.Valid() && n in p.pos
    ensures Rank(p, n) > 0 && |p.children[n]| <= Width(p)
    ensures forall c :: c in p.children[n] ==> Rank(p, c) <= Rank(p, n) - 1
  {
    assert p.order[p.pos[n]] == n;
    ListsBounded(p, |p.order|, p.pos[n]);
    forall c | c in p.children[n] ensures Rank(p, c) <= Rank(p, n) - 1 {
      assert n in p.deps[c];
    }
  }

  lemma ScaleLeft(x: nat, y: nat, w: nat)
    requires x <= y
    ensures x * w <= y * w
  {
  }

  // ---------------------------------------------------------------- every transition weighs less

  lemma MoveWeighs(p: Plan, s: State, k: nat, phase: Phase)
    requires k < |s.gos| && Weight(p, Go(s.gos[k].step, phase)) < Weight(p, s.gos[k])
    ensures TotalWeight(p, s.At(k, phase).gos) < TotalWeight(p, s.gos)
  {
    TotalUpdate(p, s.gos, k, Go(s.gos[k].step, phase));
  }

  lemma LaunchWeighs(p: Plan, s: State, k: nat)
    requires Enabled(p, s, LaunchChild(k))
    ensures Measure(p, Apply(p, s, LaunchChild(k))) < Measure(p, s)
  {
    var ready := s.gos[k].phase.ready;
    var g := Go(s.gos[k].step, Launching(ready[1..]));
    TotalUpdate(p, s.gos, k, g);
    TotalAppend(p, s.gos[k := g], Go(ready[0], Waiting));
  }

  lemma FinishWeighs(p: Plan, s: State, k: nat, res: StepResult)
    requires p.Valid() && NamesKnown(p, s) && Enabled(p, s, Finish(k, res))
    ensures Measure(p, Apply(p, s, Finish(k, res))) < Measure(p, s)
  {
    hide LaunchCost, Width, Ready, StepCost, ReadyCost, TotalWeight, NamesKnown, Plan.Linked, Plan.Sorted;
    var t := Apply(p, s, Finish(k, res));
    CostAtLeast(p, s.gos[k].step);
    ChildrenCostLess(p, s.gos[k].step, t.results);
    MoveWeighs(p, s, k, t.gos[k].phase);
  }

  lemma SweepWeighs(p: Plan, s: State)
    requires p.Valid() && SweepInv(p, s) && Enabled(p, s, Sweep)
    ensures Measure(p, Apply(p, s, Sweep)) < Measure(p, s)
  {
    hide LaunchCost, Width, MaxDeps, TotalWeight, SweepUnit, StepCost;
    hide Plan.Linked, Plan.Sorted;
    var t := Apply(p, s, Sweep);
    var n := p.listing[s.i];
    SweepUnitCovers(p, n);
    Distribute(|p.listing| - s.i, SweepUnit(p));
    TotalAppend(p, s.gos, Go(n, Waiting));
  }

  /** A sweep position is worth more than reading the step's dependencies and launching it. */
  lemma SweepUnitCovers(p: Plan, n: string)
    requires p.Valid() && n in p.pos
    ensures |p.deps[n]| + 2 + StepCost(p, n) <= SweepUnit(p)
  {
    assert p.order[p.pos[n]] == n;
    ListsBounded(p, |p.order|, p.pos[n]);
    LaunchCostGrows(Width(p), Rank(p, n), |p.order|);
  }

  lemma PhaseWeighs(p: Plan, s: State, a: Action)
    requires Enabled(p, s, a) && (a.Acquire? || a.Decide? || a.Proceed? || a.Release?)
    ensures Measure(p, Apply(p, s, a)) < Measure(p, s)
  {
    hide LaunchCost, Width, StepCost, TotalWeight;
    CostAtLeast(p, s.gos[a.k].step);
    MoveWeighs(p, s, a.k, Apply(p, s, a).gos[a.k].phase);
  }

  lemma StepWeighs(p: Plan, s: State, a: Action)
    requires Inv(p, s) && Enabled(p, s, a)
    ensures Measure(p, Apply(p, s, a)) < Measure(p, s)
  {
    match a
    case Finish(k, res) => FinishWeighs(p, s, k, res);
    case LaunchChild(k) => LaunchWeighs(p, s, k);
    case Sweep => SweepWeighs(p, s);
    case CancelContext =>
    case _ => PhaseWeighs(p, s, a);
  }

  lemma MeasureNonnegative(p: Plan, s: State)
    requires p.Valid() && SweepInv(p, s)
    ensures Measure(p, s) >= 0
  {
    hide LaunchCost, Width, MaxDeps, TotalWeight;
    if s.i < |p.listing| {
      SweepUnitCovers(p, p.listing[s.i]);
      ScaleLeft(1, |p.listing| - s.i, SweepUnit(p));
    }
  }

  // ---------------------------------------------------------------- whole runs

  /** Every run is finite: it has no more transitions than its first state weighs. */
  lemma {:induction false} RunsTerminate(p: Plan, run: seq<State>, x: nat)
    requires IsRun(p, run) && Inv(p, run[0]) && x < |run|
    ensures x + Measure(p, run[x]) <= Measure(p, run[0])
  {
    hide Inv, Measure;
    if x > 0 {
      RunsTerminate(p, run, x - 1);
      RunInv(p, run, x - 1);
      assert Next(p, run[x - 1], run[x]);
      var a :| Enabled(p, run[x - 1], a) && run[x] == Apply(p, run[x - 1], a);
      StepWeighs(p, run[x - 1], a);
    }
  }

  lemma RunLengthBound(p: Plan, run: seq<State>)
    requires p.Valid() && IsRun(p, run) && run[0] == Init(p)
    ensures |run| - 1 <= Measure(p, Init(p))
  {
    InitInv(p);
    RunsTerminate(p, run, |run| - 1);
    RunInv(p, run, |run| - 1);
    MeasureNonnegative(p, run[|run| - 1]);
  }

  lemma Extend(p: Plan, s: State, a: Action, rest: seq<State>)
    requires Enabled(p, s, a) && IsRun(p, rest) && rest[0] == Apply(p, s, a)
    ensures IsRun(p, [s] + rest)
  {
    var run := [s] + rest;
    forall x | 0 <= x < |run| - 1 ensures Next(p, run[x], run[x + 1]) {
      if x > 0 {
        assert run[x] == rest[x - 1] && run[x + 1] == rest[x];
        assert Next(p, rest[x - 1], rest[x]);
      } else {
        assert run[x] == s && run[x + 1] == rest[0];
      }
    }
  }

  lemma Join(p: Plan, first: seq<State>, second: seq<State>)
    requires IsRun(p, first) && IsRun(p, second) && first[|first| - 1] == second[0]
    ensures var run := first + second[1..];
            IsRun(p, run) && run[0] == first[0] && run[|run| - 1] == second[|second| - 1]
  {
    var run := first + second[1..];
    forall x | 0 <= x < |run| - 1 ensures Next(p, run[x], run[x + 1]) {
      if x < |first| - 1 {
        assert Next(p, first[x], first[x + 1]);
        assert run[x] == first[x] && run[x + 1] == first[x + 1];
      } else {
        var y := x - (|first| - 1);
        assert run[x] == second[y] && run[x + 1] == second[y + 1];
        assert Next(p, second[y], second[y + 1]);
      }
    }
  }

  /** From any state the goroutines can finish on their own, with the sweep held where it is. */
  lemma {:induction false} CanQuiesce(p: Plan, s: State) returns (run: seq<State>)
    requires Inv(p, s)
    ensures IsRun(p, run) && run[0] == s
    ensures var t := run[|run| - 1]; Inv(p, t) && Quiet(t) && t.i == s.i && t.j == s.j
    decreases Measure(p, s)
  {
    hide Inv, Measure;
    if Quiet(s) {
      run := [s];
    } else {
      var a := MoveOf(p, s);
      var t := Apply(p, s, a);
      StepInv(p, s, a);
      StepWeighs(p, s, a);
      Nonnegative(p, s);
      var rest := CanQuiesce(p, t);
      Extend(p, s, a, rest);
      run := [s] + rest;
    }
  }

  lemma MoveOf(p: Plan, s: State) returns (a: Action)
    requires Inv(p, s) && !Quiet(s)
    ensures Enabled(p, s, a) && Apply(p, s, a).i == s.i && Apply(p, s, a).j == s.j
  {
    a := GoroutineCanMove(p, s);
  }

  lemma Nonnegative(p: Plan, s: State)
    requires Inv(p, s)
    ensures Measure(p, s) >= 0
  {
    MeasureNonnegative(p, s);
  }

  /** From any reachable state the scheduler can return. */
  lemma {:induction false} CanReturn(p: Plan, s: State) returns (run: seq<State>)
    requires Inv(p, s)
    ensures IsRun(p, run) && run[0] == s && run[|run| - 1].Final(p) && Inv(p, run[|run| - 1])
    decreases Measure(p, s)
  {
    hide Inv, Measure;
    if s.Final(p) {
      run := [s];
    } else {
      var a := NoDeadlock(p, s);
      StepInv(p, s, a);
      StepWeighs(p, s, a);
      Nonnegative(p, s);
      var rest := CanReturn(p, Apply(p, s, a));
      Extend(p, s, a, rest);
      run := [s] + rest;
    }
  }
}
