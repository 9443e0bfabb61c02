/** Every assignment of outcomes has a complete run, even one whose sweep is over before any goroutine moves. */
module SchedulerRuns {
  import opened Steps
  import opened Scheduler
  import opened SchedulerInvariant
  import opened SchedulerConfluence
  import opened SchedulerTermination
  import opened SchedulerOnce
  import opened SchedulerExplained

  /** A transition that the sweep makes first, and whose outcome, if any, is the step's own. */
  ghost predicate Directed(p: Plan, oracle: map<string, StepResult>, s: State, a: Action) {
    Enabled(p, s, a) && Follows(oracle, s, a) && (s.i < |p.listing| ==> a.Sweep?)
  }

  lemma SweepKnown(p: Plan, s: State)
    requires Inv(p, s)
    ensures p.Keyed() && p.Linked() && NamesKnown(p, s) && (s.i < |p.listing| ==> p.listing[s.i] in p.deps)
  {
    hide Plan.Linked, Plan.Sorted, NamesKnown, ProgressKnown, LaunchedAfterDeps, ResultsJustified, Covered, SlotsBounded;
  }

  lemma DirectedMove(p: Plan, oracle: map<string, StepResult>, s: State) returns (a: Action)
    requires Inv(p, s) && IsOracle(p, oracle) && !s.Final(p)
    ensures Directed(p, oracle, s, a)
  {
    hide Inv, IsOracle, Plan.Keyed, Plan.Linked, NamesKnown;
    SweepKnown(p, s);
    if s.i < |p.listing| {
      a := Sweep;
    } else {
      a := DirectedGoroutine(p, oracle, s);
    }
  }

  lemma DirectedGoroutine(p: Plan, oracle: map<string, StepResult>, s: State) returns (a: Action)
    requires p.Keyed() && p.Linked() && NamesKnown(p, s) && IsOracle(p, oracle) && !Quiet(s)
    ensures Enabled(p, s, a) && Follows(oracle, s, a) && !a.Sweep?
  {
    a := GoroutineCanMove(p, s);
    if a.Finish? && s.gos[a.k].phase == Executing {
      var n := s.gos[a.k].step;
      assert n in p.pos && n in oracle;
      a := Finish(a.k, oracle[n]);
    }
  }

  /** A run of directed transitions. */
  ghost predicate IsDirectedRun(p: Plan, oracle: map<string, StepResult>, run: seq<State>) {
    run != [] && forall x :: 0 <= x < |run| - 1 ==> NextDirected(p, oracle, run[x], run[x + 1])
  }

  ghost predicate NextDirected(p: Plan, oracle: map<string, StepResult>, s: State, t: State) {
    exists a :: Directed(p, oracle, s, a) && t == Apply(p, s, a)
  }

  lemma PrependDirected(p: Plan, oracle: map<string, StepResult>, s: State, a: Action, rest: seq<State>)
    requires Directed(p, oracle, s, a) && IsDirectedRun(p, oracle, rest) && rest[0] == Apply(p, s, a)
    ensures IsDirectedRun(p, oracle, [s] + rest)
  {
    hide Directed, Apply;
    var run := [s] + rest;
    assert NextDirected(p, oracle, s, rest[0]);
    forall x | 0 <= x < |run| - 1 ensures NextDirected(p, oracle, run[x], run[x + 1]) {
      if x > 0 {
        assert run[x] == rest[x - 1] && run[x + 1] == rest[x];
      }
    }
  }

  lemma {:induction false} DirectedRunFrom(p: Plan, oracle: map<string, StepResult>, s: State) returns (run: seq<State>)
    requires Inv(p, s) && IsOracle(p, oracle)
    ensures IsDirectedRun(p, oracle, run) && run[0] == s && run[|run| - 1].Final(p)
    decreases Measure(p, s)
  {
    hide Inv, Measure, Follows, IsOracle;
    if s.Final(p) {
      run := [s];
    } else {
      var a := DirectedMove(p, oracle, s);
      StepInv(p, s, a);
      StepWeighs(p, s, a);
      Nonnegative(p, s);
      var rest := DirectedRunFrom(p, oracle, Apply(p, s, a));
      PrependDirected(p, oracle, s, a, rest);
      run := [s] + rest;
    }
  }

  lemma DirectedIsBoth(p: Plan, oracle: map<string, StepResult>, run: seq<State>)
    requires IsDirectedRun(p, oracle, run) && run[0] == Init(p)
    ensures IsRunWith(p, oracle, run) && IsAtomicRun(p, run)
  {
    hide Enabled, Apply, Follows;
    forall x | 0 <= x < |run| - 1 ensures NextWith(p, oracle, run[x], run[x + 1]) && NextAtomic(p, run[x], run[x + 1]) {
      assert NextDirected(p, oracle, run[x], run[x + 1]);
    }
  }

  /**
   Whatever the outcomes of the steps, some complete run has them, and ends with the sequential results. It
   launches no step twice unless a repeated dependency can be the last one.
   */
  lemma EveryOracleHasARun(p: Plan, oracle: map<string, StepResult>) returns (run: seq<State>)
    requires p.Valid() && p.Closed() && IsOracle(p, oracle)
    ensures IsRunWith(p, oracle, run) && IsAtomicRun(p, run) && run[|run| - 1].Final(p)
    ensures NoRepeats(p) ==> LaunchesOnce(p, run)
    ensures run[|run| - 1].results == Sequential(p, oracle, |p.order|)
  {
    hide Inv, IsDirectedRun, NextWith, NextAtomic, LaunchesOnce, NoRepeats, Plan.Closed, Sequential, IsOracle;
    InitInv(p);
    run := DirectedRunFrom(p, oracle, Init(p));
    DirectedIsBoth(p, oracle, run);
    if NoRepeats(p) {
      AtomicRunLaunchesOnce(p, run);
    }
    ScheduleIndependence(p, oracle, run);
  }
}
