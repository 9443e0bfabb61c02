/**
 What snapshots and results say of the dependencies, in every run: they agree with them exactly when nothing
 but leaves can be launched twice.
 */
module RaceSnapshots {
  import opened Steps
  import opened Scheduler
  import opened SchedulerInvariant
  import opened SchedulerConfluence
  import opened SchedulerTermination
  import opened SchedulerOnce
  import opened SchedulerExplained
  import opened SweepRace
  import opened SingleLaunch
  import opened RaceVerdict
  import opened RaceClosure
  import opened Outcome
  import opened Snapshots

  ghost predicate AlwaysGrounded(p: Plan) {
    forall run: seq<State>, x: nat :: x < |run| && IsRun(p, run) && run[0] == Init(p) ==> Grounded(p, run[x].progress)
  }

  /**
   Every snapshot of every run shows a step as running, successful, failed or canceled only when it shows its
   dependencies as successful, exactly when only leaves can be launched twice.
   */
  lemma SnapshotsIff(p: Plan)
    requires p.Valid() && p.Closed() && CarriedSucceeded(p)
    ensures AlwaysGrounded(p) <==> DoublesAtLeaves(p)
  {
    hide Doubles, Plan.Closed, CarriedSucceeded, Plan.Linked, Plan.Sorted, IsRun, State.Final, Grounded, LaunchesOnceBut, OnlyLeaves;
    if DoublesAtLeaves(p) {
      forall run: seq<State>, x: nat | x < |run| && IsRun(p, run) && run[0] == Init(p) ensures Grounded(p, run[x].progress) {
        var exempt := LeavesLaunchOnce(p, run);
        SnapshotExplained(p, run, x, exempt);
      }
    } else {
      var d :| Doubles(p, d) && !(d in p.children && p.children[d] == []);
      var run, n := LeavesOpen(p, d);
      ShowsTheFailure(p, run, n, d);
    }
  }

  lemma ShowsTheFailure(p: Plan, run: seq<State>, n: string, d: string)
    requires p.Valid() && IsCompleteRun(p, run) && n in p.deps && d in p.deps[n]
    requires var results := run[|run| - 1].results;
             n in results && results[n].status == Success && d in results && results[d].status == Failed
    ensures !Grounded(p, run[|run| - 1].progress)
  {
    hide Inv, IsRun, State.Final, ProgressReal, Plan.Valid;
    InitInv(p);
    RunInv(p, run, |run| - 1);
    RunReal(p, run, |run| - 1);
    FinalShown(p, run[|run| - 1]);
  }

  ghost predicate AlwaysExplained(p: Plan) {
    forall run: seq<State> :: IsCompleteRun(p, run) ==> ResultsExplained(p, run[|run| - 1])
  }

  /**
   Every complete run ends with results that agree with the dependencies - a step is skipped exactly when some
   dependency did not succeed - exactly when only leaves can be launched twice.
   */
  lemma ExplainedIff(p: Plan)
    requires p.Valid() && p.Closed() && CarriedSucceeded(p)
    ensures AlwaysExplained(p) <==> DoublesAtLeaves(p)
  {
    hide Doubles, Plan.Closed, CarriedSucceeded, Plan.Linked, Plan.Sorted, IsRun, State.Final, ResultsExplained, LaunchesOnceBut, OnlyLeaves, Agreed;
    if DoublesAtLeaves(p) {
      forall run: seq<State> | IsCompleteRun(p, run) ensures ResultsExplained(p, run[|run| - 1]) {
        AgreedInTheEnd(p, run);
      }
    } else {
      var d :| Doubles(p, d) && !(d in p.children && p.children[d] == []);
      var run, n := LeavesOpen(p, d);
      NotExplained(p, run[|run| - 1], n, d);
    }
  }

  lemma AgreedInTheEnd(p: Plan, run: seq<State>)
    requires p.Valid() && p.Closed() && DoublesAtLeaves(p) && IsCompleteRun(p, run)
    ensures ResultsExplained(p, run[|run| - 1]) && CarriedKept(p, run[|run| - 1])
  {
    hide DoublesAtLeaves, OnlyLeaves, LaunchesOnceBut, IsRun, State.Final, Plan.Closed, ResultsExplained, PhasesExplained, CarriedKept;
    var exempt := LeavesLaunchOnce(p, run);
    RunAgreed(p, run, |run| - 1, exempt);
  }

  lemma NotExplained(p: Plan, s: State, n: string, d: string)
    requires p.Valid() && p.Closed() && Doubles(p, d) && n in p.deps && d in p.deps[n]
    requires n in s.results && s.results[n].status == Success && d in s.results && s.results[d].status == Failed
    ensures !ResultsExplained(p, s)
  {
    hide Plan.Linked, Plan.Sorted, ResultsExplained;
    DoublesFresh(p, d);
    if ResultsExplained(p, s) {
      Unfold(p, s, n);
    }
  }

  lemma DoublesFresh(p: Plan, d: string)
    requires Doubles(p, d)
    ensures d !in p.carry
  {
    hide HeldBack, HasFreshDep, Delayed;
  }

  /** Where only leaves can be launched twice, every skipped step has a dependency path to a failed or canceled one. */
  lemma SkipsHaveCulprits(p: Plan, run: seq<State>, n: string) returns (path: seq<string>)
    requires p.Valid() && p.Closed() && CarriedSucceeded(p) && DoublesAtLeaves(p) && IsCompleteRun(p, run)
    requires n in run[|run| - 1].results && run[|run| - 1].results[n].status == Skipped
    ensures |path| >= 2 && path[0] == n && DepChain(p, path)
    ensures var results := run[|run| - 1].results;
            path[|path| - 1] in results && results[path[|path| - 1]].status in {Failed, Canceled}
  {
    hide DoublesAtLeaves, ResultsExplained, CarriedKept, CarriedSucceeded, IsRun, State.Final, DepChain, Plan.Linked, Plan.Sorted;
    hide SweepInv, Covered, SlotsBounded, LaunchedAfterDeps, ResultsJustified;
    var s := run[|run| - 1];
    InitInv(p);
    RunInv(p, run, |run| - 1);
    FinalHasAllResults(p, s);
    AgreedInTheEnd(p, run);
    path := SkippedHasCulprit(p, s, n);
  }
}
