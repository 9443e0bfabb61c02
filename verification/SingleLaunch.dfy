/**
 Repeated dependencies. A step is put on the ready list once for each time it lists the dependency
 that completes last, so it is launched more than once when that is one it repeats. Together with the
 race of the unlocked sweep, this is exactly how a step comes to be launched twice.
 */
module SingleLaunch {
  import opened Sequences
  import opened Steps
  import opened Scheduler
  import opened SchedulerInvariant
  import opened SchedulerTermination
  import opened SchedulerOnce
  import opened SweepRace
  import opened Schedules
  import opened Plans

  /** How often a goroutine stands for a launch of `n`: as its own, and for each pending one. */
  function Share(g: Goroutine, n: string): nat {
    (if g.step == n then 1 else 0) + multiset(g.Pending())[n]
  }

  function Total(gos: seq<Goroutine>, n: string): nat {
    if gos == [] then 0 else Total(gos[..|gos| - 1], n) + Share(gos[|gos| - 1], n)
  }

  lemma {:induction false} TotalUpdated(gos: seq<Goroutine>, k: nat, g: Goroutine, n: string)
    requires k < |gos|
    ensures Total(gos[k := g], n) + Share(gos[k], n) == Total(gos, n) + Share(g, n)
  {
    hide Share;
    var last := |gos| - 1;
    if k < last {
      TotalUpdated(gos[..last], k, g, n);
      assert gos[k := g][..last] == gos[..last][k := g];
    } else {
      assert gos[k := g][..last] == gos[..last];
    }
  }

  lemma TotalAppended(gos: seq<Goroutine>, g: Goroutine, n: string)
    ensures Total(gos + [g], n) == Total(gos, n) + Share(g, n)
  {
    hide Share;
    assert (gos + [g])[..|gos|] == gos;
  }

  /** Launching a pending child moves its share to a goroutine of its own. */
  lemma ChildShare(step: string, ready: seq<string>, n: string)
    requires ready != []
    ensures Share(Go(step, Launching(ready)), n)
         == Share(Go(step, Launching(ready[1..])), n) + Share(Go(ready[0], Waiting), n)
  {
    assert ready == [ready[0]] + ready[1..];
  }

  predicate Moves(a: Action) {
    a.Acquire? || a.Decide? || a.Proceed? || a.Finish? || a.Release?
  }

  lemma MoveForm(p: Plan, s: State, a: Action)
    requires Enabled(p, s, a) && Moves(a)
    ensures var t := Apply(p, s, a);
            a.k < |s.gos| == |t.gos| && t.gos == s.gos[a.k := t.gos[a.k]]
            && t.gos[a.k].step == s.gos[a.k].step && s.gos[a.k].Pending() == []
  {
    hide Ready, DepsSucceeded, DepsSet;
  }

  lemma MoveGrows(gos: seq<Goroutine>, k: nat, g: Goroutine, n: string)
    requires k < |gos| && gos[k].Pending() == [] && g.step == gos[k].step
    ensures Total(gos[k := g], n) == Total(gos, n) + multiset(g.Pending())[n]
  {
    TotalUpdated(gos, k, g, n);
  }

  /** No transition loses a launch. */
  lemma TotalGrows(p: Plan, s: State, a: Action, n: string)
    requires Enabled(p, s, a)
    ensures Total(Apply(p, s, a).gos, n) >= Total(s.gos, n)
  {
    if Moves(a) {
      hide Apply, Enabled, Total;
      MoveForm(p, s, a);
      MoveGrows(s.gos, a.k, Apply(p, s, a).gos[a.k], n);
    } else if a.LaunchChild? {
      ChildMoves(p, s, a.k, n);
    } else {
      SweepGrows(p, s, a, n);
    }
  }

  lemma SweepGrows(p: Plan, s: State, a: Action, n: string)
    requires Enabled(p, s, a) && (a.Sweep? || a.CancelContext?)
    ensures Total(Apply(p, s, a).gos, n) >= Total(s.gos, n)
  {
    hide Total, Share, Ready, DepsSucceeded, DepsSet;
    if a.Sweep? {
      TotalAppended(s.gos, Go(p.listing[s.i], Waiting), n);
    }
  }

  lemma ChildMoves(p: Plan, s: State, k: nat, n: string)
    requires Enabled(p, s, LaunchChild(k))
    ensures Total(Apply(p, s, LaunchChild(k)).gos, n) == Total(s.gos, n)
  {
    hide Share;
    var ready := s.gos[k].phase.ready;
    var moved := Go(s.gos[k].step, Launching(ready[1..]));
    TotalUpdated(s.gos, k, moved, n);
    TotalAppended(s.gos[k := moved], Go(ready[0], Waiting), n);
    ChildShare(s.gos[k].step, ready, n);
  }

  /** `n` lists `d` more than once, and all its other dependencies have a status. */
  ghost predicate LastOf(p: Plan, s: State, n: string, d: string) {
    && n in p.deps && d in p.children
    && multiset(p.children[d])[n] >= 2
    && forall e :: e in p.deps[n] ==> e == d || e in s.results
  }

  /** Once `d` has a result, two launches of `n` have been made or are pending. */
  ghost predicate TwiceOnce(s: State, n: string, d: string) {
    d in s.results ==> Total(s.gos, n) >= 2
  }

  lemma FinishTwice(p: Plan, s: State, k: nat, res: StepResult, n: string, d: string)
    requires Enabled(p, s, Finish(k, res)) && LastOf(p, s, n, d) && s.gos[k].step == d
    ensures Total(Apply(p, s, Finish(k, res)).gos, n) >= 2
  {
    hide Total, Ready, LastOf;
    MoveForm(p, s, Finish(k, res));
    var t := Apply(p, s, Finish(k, res));
    LastOfSets(p, s, n, d, t.results);
    ReadyCount(p.children[d], p.deps, t.results, n);
    MoveGrows(s.gos, k, t.gos[k], n);
  }

  lemma LastOfSets(p: Plan, s: State, n: string, d: string, results: map<string, StepResult>)
    requires LastOf(p, s, n, d) && d in results && s.results.Keys <= results.Keys
    ensures n in p.deps && d in p.children && multiset(p.children[d])[n] >= 2 && DepsSet(p.deps[n], results)
  {
  }

  lemma LastOfKept(p: Plan, s: State, t: State, n: string, d: string)
    requires LastOf(p, s, n, d) && s.results.Keys <= t.results.Keys
    ensures LastOf(p, t, n, d)
  {
  }

  lemma TwiceStep(p: Plan, s: State, a: Action, n: string, d: string)
    requires Enabled(p, s, a) && LastOf(p, s, n, d) && TwiceOnce(s, n, d)
    ensures LastOf(p, Apply(p, s, a), n, d) && TwiceOnce(Apply(p, s, a), n, d)
  {
    hide Apply, Enabled, Total, LastOf;
    var t := Apply(p, s, a);
    StepGrows(p, s, a);
    LastOfKept(p, s, t, n, d);
    TotalGrows(p, s, a, n);
    if d in t.results && d !in s.results {
      OnlyCompletion(p, s, a, d);
      FinishTwice(p, s, a.k, a.res, n, d);
    }
  }

  lemma OnlyCompletion(p: Plan, s: State, a: Action, d: string)
    requires Enabled(p, s, a) && d in Apply(p, s, a).results && d !in s.results
    ensures a.Finish? && a.k < |s.gos| && s.gos[a.k].step == d
  {
    hide Ready, DepsSucceeded;
  }

  lemma {:induction false} RunTwice(p: Plan, run: seq<State>, x: nat, n: string, d: string)
    requires IsRun(p, run) && x < |run| && LastOf(p, run[0], n, d) && TwiceOnce(run[0], n, d)
    ensures LastOf(p, run[x], n, d) && TwiceOnce(run[x], n, d)
  {
    hide Total, LastOf, TwiceOnce;
    if x > 0 {
      RunTwice(p, run, x - 1, n, d);
      assert Next(p, run[x - 1], run[x]);
      var a :| Enabled(p, run[x - 1], a) && run[x] == Apply(p, run[x - 1], a);
      TwiceStep(p, run[x - 1], a, n, d);
    }
  }

  lemma {:induction false} OneIndex(gos: seq<Goroutine>, n: string) returns (i: nat)
    requires Total(gos, n) >= 1 && forall k :: 0 <= k < |gos| ==> gos[k].Pending() == []
    ensures i < |gos| && gos[i].step == n
  {
    var last := |gos| - 1;
    if gos[last].step == n {
      i := last;
    } else {
      i := OneIndex(gos[..last], n);
    }
  }

  lemma {:induction false} TwoIndexes(gos: seq<Goroutine>, n: string) returns (i: nat, j: nat)
    requires Total(gos, n) >= 2 && forall k :: 0 <= k < |gos| ==> gos[k].Pending() == []
    ensures i < j < |gos| && gos[i].step == n && gos[j].step == n
  {
    var last := |gos| - 1;
    if gos[last].step == n {
      j := last;
      i := OneIndex(gos[..last], n);
    } else {
      i, j := TwoIndexes(gos[..last], n);
    }
  }

  /** From a state in which only a repeated dependency is still open, every way to the end launches the step twice. */
  lemma LastRepeatedTwice(p: Plan, run: seq<State>, n: string, d: string) returns (i: nat, j: nat)
    requires IsRun(p, run) && Inv(p, run[0]) && run[|run| - 1].Final(p) && d in p.pos
    requires LastOf(p, run[0], n, d) && d !in run[0].results
    ensures var gos := run[|run| - 1].gos; i < j < |gos| && gos[i].step == n && gos[j].step == n
  {
    hide Inv, Total, LastOf;
    InvAlong(p, run, |run| - 1);
    FinalHasAllResults(p, run[|run| - 1]);
    RunTwice(p, run, |run| - 1, n, d);
    i, j := TwoIndexes(run[|run| - 1].gos, n);
  }

  /** Every complete run, atomic sweep or not, launches a step twice that repeats its one fresh dependency. */
  lemma RepeatedDepLaunchesTwice(p: Plan, run: seq<State>, n: string, d: string) returns (i: nat, j: nat)
    requires p.Valid() && IsRun(p, run) && run[0] == Init(p) && run[|run| - 1].Final(p)
    requires n in p.pos && d in p.pos && d !in p.carry && multiset(p.children[d])[n] >= 2
    requires forall e :: e in p.deps[n] ==> e == d || e in p.carry
    ensures var gos := run[|run| - 1].gos; i < j < |gos| && gos[i].step == n && gos[j].step == n
  {
    hide Inv;
    InitInv(p);
    SoleDep(p, n, d);
    i, j := LastRepeatedTwice(p, run, n, d);
  }

  lemma SoleDep(p: Plan, n: string, d: string)
    requires p.Valid() && n in p.pos && d in p.pos && d !in p.carry && multiset(p.children[d])[n] >= 2
    requires forall e :: e in p.deps[n] ==> e == d || e in p.carry
    ensures LastOf(p, Init(p), n, d) && d !in Init(p).results
  {
    hide Plan.Linked;
  }

  /** Listing a dependency more than once is what repeats a child. */
  lemma RepeatedEntry(steps: seq<Step>, order: seq<string>, carry: map<string, StepResult>, n: string, d: string)
    requires UniqueNames(steps) && IsOrder(steps, order) && n in Names(steps) && d in Names(steps)
    ensures var p := MakePlan(steps, order, carry);
            d in p.children && multiset(p.children[d])[n] == multiset(Deps(steps, n))[d]
  {
    hide Deps, Children, Positions, IsOrder, Plan.Keyed;
    PlanMaps(steps, order, carry);
    ChildrenCount(steps, d, n);
  }

  // ---------------------------------------------------------------- the schedule that completes a dependency last

  lemma AtomicAfter(p: Plan, run: seq<State>, x: nat)
    requires IsRun(p, run) && run[0].i >= |p.listing| && x < |run| - 1
    ensures NextAtomic(p, run[x], run[x + 1])
  {
    hide Apply, Enabled;
    IndexAlong(p, run, x);
    assert Next(p, run[x], run[x + 1]);
  }

  lemma {:induction false} IndexAlong(p: Plan, run: seq<State>, x: nat)
    requires IsRun(p, run) && x < |run|
    ensures run[x].i >= run[0].i
  {
    if x > 0 {
      IndexAlong(p, run, x - 1);
      assert Next(p, run[x - 1], run[x]);
      var a :| Enabled(p, run[x - 1], a) && run[x] == Apply(p, run[x - 1], a);
      hide Apply, Enabled;
      StepGrows(p, run[x - 1], a);
    }
  }

  /** A sweep followed by a run of the goroutines is a run with an atomic sweep. */
  lemma SweepThenRun(p: Plan, sweep: seq<State>, rest: seq<State>)
    requires IsSweepRun(p, sweep) && sweep[0] == Init(p) && IsRun(p, rest) && rest[0] == sweep[|sweep| - 1]
    requires rest[0].i >= |p.listing|
    ensures var run := sweep + rest[1..]; IsAtomicRun(p, run) && run[|run| - 1] == rest[|rest| - 1]
  {
    hide Apply, Enabled, NextAtomic;
    var run := sweep + rest[1..];
    forall x | 0 <= x < |run| - 1 ensures NextAtomic(p, run[x], run[x + 1]) {
      if x < |sweep| - 1 {
        assert run[x] == sweep[x] && run[x + 1] == sweep[x + 1];
        SweepAtomic(p, sweep[x], sweep[x + 1]);
      } else {
        var y := x - (|sweep| - 1);
        assert run[x] == rest[y] && run[x + 1] == rest[y + 1];
        AtomicAfter(p, rest, y);
      }
    }
  }

  lemma SweepAtomic(p: Plan, s: State, t: State)
    requires Enabled(p, s, Sweep) && t == Apply(p, s, Sweep)
    ensures NextAtomic(p, s, t)
  {
  }

  lemma HeldParts(p: Plan, s: State)
    requires Inv(p, s)
    ensures p.Valid() && NamesKnown(p, s) && ResultsJustified(p, s) && Covered(p, s)
  {
  }

  /** Held back to the end, a dependency that nothing else of `n` waits for is the last one open. */
  lemma HeldToTheEnd(p: Plan, s: State, n: string, d: string)
    requires Inv(p, s) && Settled(HoldStep(d), s) && HeldUp(s, d) && s.i == |p.listing|
    requires n in p.pos && d in p.pos && multiset(p.children[d])[n] >= 2 && !Delayed(p, n, d)
    ensures LastOf(p, s, n, d)
  {
    hide HeldBack, DependsOn, Settled, HeldUp, Inv, Plan.Linked;
    HeldParts(p, s);
    forall e | e in p.deps[n] && e != d ensures e in s.results {
      NothingHeldBack(p, e);
      SettledCompletes(p, s, d, e);
    }
  }

  /** With an atomic sweep, a run that launches a step twice, when a repeated dependency can be its last one. */
  lemma RepeatHappens(p: Plan, n: string, d: string) returns (run: seq<State>)
    requires p.Valid() && n in p.pos && d in p.pos && d !in p.carry
    requires multiset(p.children[d])[n] >= 2 && !Delayed(p, n, d)
    ensures IsAtomicRun(p, run) && !NoDoubleLaunch(run[|run| - 1], {})
  {
    hide Inv, Delayed, HeldUp, Settled, LastOf, NoDoubleLaunch;
    InitInv(p);
    InitHeld(p, d);
    var sweep := SweepTo(p, Init(p), |p.listing|);
    SweepIsGuided(p, HoldStep(d), {}, sweep);
    HeldAlong(p, d, {}, sweep, |sweep| - 1);
    var held := Settle(p, HoldStep(d), {}, sweep[|sweep| - 1]);
    HeldAlong(p, d, {}, held, |held| - 1);
    var s := held[|held| - 1];
    HeldToTheEnd(p, s, n, d);
    var free := Settle(p, HoldNone, {}, s);
    GuidedIsRun(p, HoldStep(d), {}, held);
    GuidedIsRun(p, HoldNone, {}, free);
    Join(p, held, free);
    var rest := held + free[1..];
    SweepThenRun(p, sweep, rest);
    run := sweep + rest[1..];
    FreeIsFinal(p, free[|free| - 1]);
    NotYet(s, d);
    var i, j := LastRepeatedTwice(p, free, n, d);
    TwoOfThem(run[|run| - 1], i, j);
  }

  lemma NotYet(s: State, d: string)
    requires HeldUp(s, d)
    ensures d !in s.results
  {
  }

  lemma TwoOfThem(s: State, i: nat, j: nat)
    requires i < j < |s.gos| && s.gos[i].step == s.gos[j].step
    ensures !NoDoubleLaunch(s, {})
  {
  }

  // ---------------------------------------------------------------- the exact conditions

  /** `n` can be launched twice with everything it waits for done: it races, or repeats a dependency that can be its last one. */
  ghost predicate Doubles(p: Plan, n: string) {
    (exists x :: 0 <= x < |p.listing| && p.listing[x] == n && RaceAt(p, x)) || (exists d :: Repeats(p, n, d))
  }

  lemma NoDoubles(p: Plan)
    ensures (forall n :: !Doubles(p, n)) <==> NoRepeats(p) && forall x :: 0 <= x < |p.listing| ==> !RaceAt(p, x)
  {
    hide RaceAt, Repeats;
    if forall n :: !Doubles(p, n) {
      forall x | 0 <= x < |p.listing| ensures !RaceAt(p, x) {
        assert !Doubles(p, p.listing[x]);
      }
      forall n, d ensures !Repeats(p, n, d) {
        assert !Doubles(p, n);
      }
    }
  }

  /**
   With an atomic sweep and a closed carried set, no step is ever launched twice exactly when no step
   repeats a dependency that can be its last one to get a status.
   */
  lemma AtomicOnceIff(p: Plan)
    requires p.Valid() && p.Closed()
    ensures (forall run :: IsAtomicRun(p, run) ==> NoDoubleLaunch(run[|run| - 1], {})) <==> NoRepeats(p)
  {
    hide NoDoubleLaunch, Delayed, Plan.Closed, NextAtomic;
    if NoRepeats(p) {
      forall run | IsAtomicRun(p, run) ensures NoDoubleLaunch(run[|run| - 1], {}) {
        AtomicRunOnce(p, run, |run| - 1);
        OnceMeansSingle(p, run[|run| - 1]);
      }
    } else {
      var run := SomeRepeat(p);
      assert IsAtomicRun(p, run);
    }
  }

  lemma SomeRepeat(p: Plan) returns (run: seq<State>)
    requires p.Valid() && !NoRepeats(p)
    ensures IsAtomicRun(p, run) && !NoDoubleLaunch(run[|run| - 1], {})
  {
    hide Delayed, NoDoubleLaunch, IsAtomicRun;
    var n, d :| Repeats(p, n, d);
    run := RepeatHappens(p, n, d);
  }

  lemma AtomicIsReachable(p: Plan, run: seq<State>)
    requires IsAtomicRun(p, run)
    ensures Reachable(p, run[|run| - 1])
  {
    hide Apply, Enabled;
    forall x | 0 <= x < |run| - 1 ensures Next(p, run[x], run[x + 1]) {
      assert NextAtomic(p, run[x], run[x + 1]);
    }
    assert IsRun(p, run);
  }

  /**
   With the unlocked sweep and a closed carried set, no step is ever launched twice exactly when, in
   addition, no declared position races.
   */
  lemma LaunchedOnceIff(p: Plan)
    requires p.Valid() && p.Closed()
    ensures (forall s :: Reachable(p, s) ==> NoDoubleLaunch(s, {}))
       <==> NoRepeats(p) && forall x :: 0 <= x < |p.listing| ==> !RaceAt(p, x)
  {
    hide RaceAt, NoDoubleLaunch, NoRepeats, RepeatsExempt, Plan.Closed, IsAtomicRun;
    if !NoRepeats(p) {
      var run := SomeRepeat(p);
      AtomicIsReachable(p, run);
    } else if forall x :: 0 <= x < |p.listing| ==> !RaceAt(p, x) {
      forall s | Reachable(p, s) ensures NoDoubleLaunch(s, {}) {
        var run :| IsRun(p, run) && run[0] == Init(p) && run[|run| - 1] == s;
        NoneExempt(p);
        NoRaceRun(p, run, |run| - 1, {});
        OnceMeansSingle(p, s);
      }
    } else {
      var x :| 0 <= x < |p.listing| && RaceAt(p, x);
      var run := RaceHappens(p, x);
      assert Reachable(p, run[|run| - 1]);
    }
  }
}
