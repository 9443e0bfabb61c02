/**
 The unlocked sweep. While the sweep reads statuses, goroutines may complete and launch children the
 sweep has not reached yet; the sweep then launches them again. `RaceAt` is the exact condition:
 the step declared at that position waits for a step that is not carried over, and everything that
 holds it back is declared earlier, so all of it can complete before the sweep arrives.
 */
module SweepRace {
  import opened Steps
  import opened Scheduler
  import opened SchedulerInvariant
  import opened SchedulerConfluence
  import opened SchedulerTermination
  import opened SchedulerOnce

  /** `n`, or something it transitively waits for, can only be launched by the sweep at position `x` or later. */
  ghost predicate HeldBack(p: Plan, x: nat, n: string)
    requires n in p.pos
    decreases p.pos[n]
  {
    && n !in p.carry
    && if HasFreshDep(p, n) then exists d :: d in p.deps[n] && d in p.pos && p.pos[d] < p.pos[n] && HeldBack(p, x, d)
       else !Swept(p, x, n)
  }

  ghost predicate RaceAt(p: Plan, x: nat)
    requires x < |p.listing|
  {
    p.listing[x] in p.pos && p.listing[x] !in p.carry && HasFreshDep(p, p.listing[x]) && !HeldBack(p, x, p.listing[x])
  }

  // ---------------------------------------------------------------- without a race: single launches

  /** A step that only waits for carried steps is launched by the sweep and by nothing else. */
  ghost predicate RootsBySweep(p: Plan, s: State) {
    forall n :: s.Launched(n) && !HasFreshDep(p, n) ==> Swept(p, s.i, n)
  }

  lemma RootsStep(p: Plan, s: State, a: Action)
    requires p.Keyed() && p.Linked() && NamesKnown(p, s) && NoCarriedLaunch(p, s) && RootsBySweep(p, s) && Enabled(p, s, a)
    ensures RootsBySweep(p, Apply(p, s, a))
  {
    hide Apply, Enabled;
    var t := Apply(p, s, a);
    StepEffect(p, s, a);
    SweepMoves(p, s, a);
    forall n | t.Launched(n) && !HasFreshDep(p, n) ensures Swept(p, t.i, n) {
      if !s.Launched(n) {
        NewLaunchSwept(p, s, a, t, n);
      }
    }
  }

  lemma NewLaunchSwept(p: Plan, s: State, a: Action, t: State, n: string)
    requires p.Keyed() && p.Linked() && NamesKnown(p, s) && NoCarriedLaunch(p, s) && Enabled(p, s, a) && t == Apply(p, s, a)
    requires Effect(p, s, a, t) && t.Launched(n) && !s.Launched(n) && !HasFreshDep(p, n)
    ensures Swept(p, t.i, n)
  {
    hide Ready, DepsSucceeded;
    var k :| 0 <= k < |t.gos| && (t.gos[k].step == n || n in t.gos[k].Pending());
    if k < |s.gos| {
      ReadyHasFreshDep(p, s, a, t, k, n);
    } else {
      assert t.gos[k].step == n;
      assert NewlyLaunched(p, s, a, n);
      assert a.Sweep? && p.listing[s.i] == n && t.i == s.i + 1;
    }
  }

  lemma ReadyHasFreshDep(p: Plan, s: State, a: Action, t: State, k: nat, c: string)
    requires p.Keyed() && p.Linked() && NamesKnown(p, s) && NoCarriedLaunch(p, s)
    requires Effect(p, s, a, t) && k < |s.gos|
    requires (t.gos[k].step == c || c in t.gos[k].Pending()) && !s.Launched(c)
    ensures HasFreshDep(p, c)
  {
    assert NewlyReady(p, s, a, t, k, c);
    assert s.gos[k].step in p.deps[c];
  }

  lemma {:induction false} HeldBackUnset(p: Plan, s: State, x: nat, n: string)
    requires p.Valid() && LaunchedAfterDeps(p, s) && ResultsJustified(p, s) && RootsBySweep(p, s)
    requires n in p.pos && HeldBack(p, x, n) && s.i <= x
    ensures !s.Launched(n) && n !in s.results
    decreases p.pos[n]
  {
    if HasFreshDep(p, n) {
      var d := HeldBackDep(p, x, n);
      HeldBackUnset(p, s, x, d);
      NotYetLaunched(p, s, n);
    } else {
      SweptMonotone(p, s.i, x, n);
    }
    NotRecorded(p, s, n);
  }

  lemma SweptMonotone(p: Plan, i: nat, j: nat, n: string)
    requires i <= j
    ensures Swept(p, i, n) ==> Swept(p, j, n)
  {
  }

  lemma NotYetLaunched(p: Plan, s: State, n: string)
    requires LaunchedAfterDeps(p, s) && n in p.deps && !DepsSet(p.deps[n], s.results)
    ensures !s.Launched(n)
  {
    forall k | 0 <= k < |s.gos| ensures s.gos[k].step != n && n !in s.gos[k].Pending() {
    }
  }

  /** When the sweep is about to launch a step that is not racing, the step was not launched before. */
  lemma SweepLaunchIsFirst(p: Plan, s: State)
    requires Inv(p, s) && RootsBySweep(p, s) && Enabled(p, s, Sweep) && s.i < |p.listing| && !RaceAt(p, s.i)
    requires |Apply(p, s, Sweep).gos| > |s.gos|
    ensures !s.Launched(p.listing[s.i])
  {
    hide Apply, Enabled, RaceAt, HasFreshDep, CoveredByLast, CoveredBySweep, SlotsBounded, NamesKnown, LaunchedAfterDeps, ResultsJustified;
    var n := p.listing[s.i];
    SweepSawAll(p, s);
    if HasFreshDep(p, n) {
      WaitsForHeldBack(p, s, n);
    } else {
      NotSweptYet(p, s.i);
    }
  }

  lemma WaitsForHeldBack(p: Plan, s: State, n: string)
    requires p.Valid() && LaunchedAfterDeps(p, s) && ResultsJustified(p, s) && RootsBySweep(p, s)
    requires s.i < |p.listing| && n == p.listing[s.i] && !RaceAt(p, s.i) && n !in p.carry && HasFreshDep(p, n)
    ensures !DepsSet(p.deps[n], s.results)
  {
    hide LaunchedAfterDeps, ResultsJustified, RootsBySweep, HeldBack, Plan.Linked, Plan.Sorted;
    var d := HeldBackDep(p, s.i, n);
    HeldBackUnset(p, s, s.i, d);
  }

  lemma HeldBackDep(p: Plan, x: nat, n: string) returns (d: string)
    requires n in p.pos && HeldBack(p, x, n) && HasFreshDep(p, n)
    ensures d in p.deps[n] && d in p.pos && p.pos[d] < p.pos[n] && HeldBack(p, x, d)
  {
    d :| d in p.deps[n] && d in p.pos && p.pos[d] < p.pos[n] && HeldBack(p, x, d);
  }

  lemma SweepSawAll(p: Plan, s: State)
    requires SweepInv(p, s) && Enabled(p, s, Sweep) && |Apply(p, s, Sweep).gos| > |s.gos|
    ensures p.listing[s.i] in p.deps && p.listing[s.i] !in p.carry && DepsSet(p.deps[p.listing[s.i]], s.results)
  {
  }

  lemma NotSweptYet(p: Plan, i: nat)
    requires p.Keyed() && p.Sorted() && i < |p.listing|
    ensures !Swept(p, i, p.listing[i])
  {
  }

  /** Only exempt steps are declared at racing positions. */
  ghost predicate RacesExempt(p: Plan, exempt: set<string>) {
    forall y :: 0 <= y < |p.listing| && RaceAt(p, y) ==> p.listing[y] in exempt
  }

  lemma {:induction false} NoRaceRun(p: Plan, run: seq<State>, x: nat, exempt: set<string>)
    requires p.Valid() && p.Closed() && RepeatsExempt(p, exempt) && OnlyLeaves(p, exempt) && RacesExempt(p, exempt)
    requires IsRun(p, run) && run[0] == Init(p) && x < |run|
    ensures OnceInv(p, run[x], exempt) && RootsBySweep(p, run[x])
  {
    hide OnceInv, RootsBySweep, RepeatsExempt, Plan.Closed, Apply, Enabled, OnlyLeaves, RacesExempt;
    if x == 0 {
      InitOnce(p, exempt);
      InitRoots(p);
    } else {
      NoRaceRun(p, run, x - 1, exempt);
      var s := run[x - 1];
      assert Next(p, s, run[x]);
      var a :| Enabled(p, s, a) && run[x] == Apply(p, s, a);
      NoRaceStep(p, s, a, exempt);
    }
  }

  lemma InitRoots(p: Plan)
    ensures RootsBySweep(p, Init(p))
  {
  }

  lemma NoRaceStep(p: Plan, s: State, a: Action, exempt: set<string>)
    requires OnceInv(p, s, exempt) && RootsBySweep(p, s) && RepeatsExempt(p, exempt) && p.Closed() && Enabled(p, s, a)
    requires OnlyLeaves(p, exempt) && RacesExempt(p, exempt)
    ensures OnceInv(p, Apply(p, s, a), exempt) && RootsBySweep(p, Apply(p, s, a))
  {
    hide Once, RootsBySweep, RepeatsExempt, Plan.Closed, Apply, Enabled, RaceAt, OnlyLeaves, RacesExempt, FreshSweep, NoCarriedLaunch;
    SweepIsFresh(p, s, a, exempt);
    RootsStep(p, s, a);
    OnceInvStep(p, s, a, exempt);
  }

  /** Away from racing positions, the sweep is the first to launch a step. */
  lemma SweepIsFresh(p: Plan, s: State, a: Action, exempt: set<string>)
    requires Inv(p, s) && RootsBySweep(p, s) && Enabled(p, s, a) && RacesExempt(p, exempt)
    ensures FreshSweep(p, s, a, exempt)
  {
    hide Inv, RootsBySweep, Apply, RaceAt;
    if a.Sweep? && |Apply(p, s, a).gos| > |s.gos| && p.listing[s.i] !in exempt {
      assert !RaceAt(p, s.i);
      SweepLaunchIsFirst(p, s);
    }
  }

  // ---------------------------------------------------------------- with a race: a run that launches twice

  /** A run of the sweep alone. */
  ghost predicate IsSweepRun(p: Plan, run: seq<State>) {
    run != [] && forall x :: 0 <= x < |run| - 1 ==> Enabled(p, run[x], Sweep) && run[x + 1] == Apply(p, run[x], Sweep)
  }

  lemma ExtendSweep(p: Plan, s: State, rest: seq<State>)
    requires Enabled(p, s, Sweep) && IsSweepRun(p, rest) && rest[0] == Apply(p, s, Sweep)
    ensures IsSweepRun(p, [s] + rest)
  {
    hide Apply, Enabled;
    var run := [s] + rest;
    forall x | 0 <= x < |run| - 1 ensures Enabled(p, run[x], Sweep) && run[x + 1] == Apply(p, run[x], Sweep) {
      if x > 0 {
        assert run[x] == rest[x - 1] && run[x + 1] == rest[x];
      }
    }
  }

  lemma SweepIsRun(p: Plan, run: seq<State>)
    requires IsSweepRun(p, run)
    ensures IsRun(p, run)
  {
    hide Apply, Enabled;
    forall x | 0 <= x < |run| - 1 ensures Next(p, run[x], run[x + 1]) {
      assert Enabled(p, run[x], Sweep);
    }
  }

  /** The sweep alone can move on to position `x`. */
  lemma {:induction false} SweepTo(p: Plan, s: State, x: nat) returns (run: seq<State>)
    requires Inv(p, s) && s.i <= x <= |p.listing| && (s.i == x ==> s.j == 0)
    ensures run != [] && IsSweepRun(p, run) && run[0] == s
    ensures var t := run[|run| - 1]; Inv(p, t) && t.i == x && t.j == 0
    decreases Measure(p, s)
  {
    hide Inv, Measure, Apply;
    if s.i == x {
      run := [s];
    } else {
      CanSweep(p, s);
      SweepPosition(p, s);
      StepInv(p, s, Sweep);
      StepWeighs(p, s, Sweep);
      Nonnegative(p, s);
      var rest := SweepTo(p, Apply(p, s, Sweep), x);
      ExtendSweep(p, s, rest);
      run := [s] + rest;
    }
  }

  lemma CanSweep(p: Plan, s: State)
    requires Inv(p, s) && s.i < |p.listing|
    ensures Enabled(p, s, Sweep)
  {
  }

  lemma SweepPosition(p: Plan, s: State)
    requires Enabled(p, s, Sweep)
    ensures var t := Apply(p, s, Sweep); (t.i == s.i && t.j == s.j + 1) || (t.i == s.i + 1 && t.j == 0)
  {
  }

  /** The sweep alone reads its way through a step whose dependencies all have a status, and launches it. */
  lemma {:induction false} SweepLaunchRun(p: Plan, s: State) returns (run: seq<State>)
    requires Inv(p, s) && s.i < |p.listing| && p.listing[s.i] !in p.carry && p.listing[s.i] in p.deps
    requires DepsSet(p.deps[p.listing[s.i]], s.results)
    ensures run != [] && IsSweepRun(p, run) && run[0] == s && run[|run| - 1].gos == s.gos + [Go(p.listing[s.i], Waiting)]
    ensures var t := run[|run| - 1]; Inv(p, t) && t.i == s.i + 1 && t.j == 0
    decreases Measure(p, s)
  {
    hide Inv, Measure, Apply;
    CanSweep(p, s);
    var t := Apply(p, s, Sweep);
    SweepPosition(p, s);
    StepInv(p, s, Sweep);
    StepWeighs(p, s, Sweep);
    Nonnegative(p, s);
    SweepReads(p, s);
    if t.i == s.i {
      var rest := SweepLaunchRun(p, t);
      ExtendSweep(p, s, rest);
      run := [s] + rest;
    } else {
      ExtendSweep(p, s, [t]);
      run := [s] + [t];
    }
  }

  lemma SweepReads(p: Plan, s: State)
    requires Enabled(p, s, Sweep) && p.listing[s.i] !in p.carry && DepsSet(p.deps[p.listing[s.i]], s.results)
    ensures var t := Apply(p, s, Sweep);
            && t.results == s.results
            && (t.i == s.i ==> t.gos == s.gos)
            && (t.i != s.i ==> t.gos == s.gos + [Go(p.listing[s.i], Waiting)])
  {
    assert forall x :: 0 <= x < |p.deps[p.listing[s.i]]| ==> p.deps[p.listing[s.i]][x] in p.deps[p.listing[s.i]];
  }

  lemma QuietLaunched(p: Plan, s: State, n: string)
    requires ResultsJustified(p, s) && Quiet(s) && s.Launched(n)
    ensures n in s.results && exists k :: 0 <= k < |s.gos| && s.gos[k].step == n
  {
    var k :| 0 <= k < |s.gos| && (s.gos[k].step == n || n in s.gos[k].Pending());
    assert s.gos[k].phase == Done && s.gos[k].Recorded();
  }

  /** Once the goroutines are quiet, everything not held back by the sweep has completed. */
  lemma {:induction false} QuietCompletes(p: Plan, s: State, n: string)
    requires p.Valid() && NamesKnown(p, s) && ResultsJustified(p, s) && Covered(p, s) && Quiet(s)
    requires s.i <= |p.listing| && n in p.pos && !HeldBack(p, s.i, n)
    ensures n in s.results
    ensures n !in p.carry ==> s.Launched(n)
    decreases p.pos[n]
  {
    if n !in p.carry {
      if HasFreshDep(p, n) {
        forall d | d in p.deps[n] ensures d in s.results {
          QuietCompletes(p, s, d);
        }
        assert s.Launched(n);
      } else {
        assert Swept(p, s.i, n);
        var y :| 0 <= y < s.i && y < |p.listing| && p.listing[y] == n;
        assert s.Launched(p.listing[y]);
      }
      QuietLaunched(p, s, n);
    }
  }

  lemma QuietCompletesInv(p: Plan, s: State, n: string)
    requires Inv(p, s) && Quiet(s) && n in p.pos && !HeldBack(p, s.i, n)
    ensures n in s.results && (n !in p.carry ==> s.Launched(n))
  {
    QuietCompletes(p, s, n);
  }

  /** At a racing position, after the goroutines have gone quiet, the step is launched and so are its dependencies. */
  lemma RaceIsOn(p: Plan, s: State)
    requires Inv(p, s) && Quiet(s) && s.i < |p.listing| && RaceAt(p, s.i)
    ensures exists k :: 0 <= k < |s.gos| && s.gos[k].step == p.listing[s.i]
    ensures p.listing[s.i] in p.deps && DepsSet(p.deps[p.listing[s.i]], s.results)
  {
    var n := p.listing[s.i];
    QuietCompletesInv(p, s, n);
    QuietLaunched(p, s, n);
    forall d | d in p.deps[n] ensures d in s.results {
      QuietCompletesInv(p, s, d);
    }
  }

  /** A racing position can be reached, and its step launched twice. */
  lemma RaceHappens(p: Plan, x: nat) returns (run: seq<State>)
    requires p.Valid() && x < |p.listing| && RaceAt(p, x)
    ensures IsRun(p, run) && run[0] == Init(p) && !NoDoubleLaunch(run[|run| - 1], {})
  {
    hide Inv, RaceAt, NoDoubleLaunch;
    InitInv(p);
    var run1 := SweepTo(p, Init(p), x);
    var run2 := CanQuiesce(p, run1[|run1| - 1]);
    var s := run2[|run2| - 1];
    RaceIsOn(p, s);
    NotCarriedAtRace(p, x);
    var run3 := SweepLaunchRun(p, s);
    SweepIsRun(p, run1);
    SweepIsRun(p, run3);
    Join(p, run2, run3);
    var run23 := run2 + run3[1..];
    Join(p, run1, run23);
    run := run1 + run23[1..];
    var k :| 0 <= k < |s.gos| && s.gos[k].step == p.listing[s.i];
    TwoLaunches(run[|run| - 1], s, k, p.listing[s.i]);
  }

  lemma NotCarriedAtRace(p: Plan, x: nat)
    requires p.Valid() && x < |p.listing| && RaceAt(p, x)
    ensures p.listing[x] !in p.carry
  {
  }

  lemma TwoLaunches(t: State, s: State, k: nat, n: string)
    requires k < |s.gos| && s.gos[k].step == n && t.gos == s.gos + [Go(n, Waiting)]
    ensures !NoDoubleLaunch(t, {})
  {
    assert t.gos[k].step == t.gos[|s.gos|].step;
  }

  lemma OnceMeansSingle(p: Plan, s: State)
    requires OnceInv(p, s, {})
    ensures NoDoubleLaunch(s, {})
  {
  }

  /**
   The usual way to write a workflow races: steps declared after their dependencies, with at least
   one dependency between steps that are not carried over.
   */
  lemma DeclaredInOrderRaces(p: Plan, x: nat)
    requires p.Valid() && p.listing == p.order && x < |p.listing|
    requires p.listing[x] !in p.carry && HasFreshDep(p, p.listing[x])
    ensures RaceAt(p, x)
  {
    InOrderNotHeldBack(p, x, p.listing[x]);
  }

  lemma {:induction false} InOrderNotHeldBack(p: Plan, x: nat, n: string)
    requires p.Valid() && p.listing == p.order && n in p.pos && p.pos[n] <= x
    requires p.pos[n] == x ==> HasFreshDep(p, n)
    ensures !HeldBack(p, x, n)
    decreases p.pos[n]
  {
    if HasFreshDep(p, n) {
      forall d | d in p.deps[n] ensures !HeldBack(p, x, d) {
        InOrderNotHeldBack(p, x, d);
      }
    } else {
      assert p.listing[p.pos[n]] == n;
    }
  }
}
