/**
 What a run of the steps amounts to: the result vector it returns, the status its execution ends
 with, and the blame behind every skipped step.
 */
module Outcome {
  import opened Steps
  import opened Scheduler
  import opened SchedulerInvariant
  import opened SchedulerConfluence
  import opened SchedulerTermination
  import opened SchedulerOnce
  import opened SchedulerExplained

  /** The vector returned for a plan: one result for each position of the order. */
  function Vector(p: Plan, results: map<string, StepResult>): seq<StepResult> {
    seq(|p.order|, i requires 0 <= i < |p.order| =>
      if p.order[i] in results then results[p.order[i]] else StepResult("", Unset, 0, ""))
  }

  // ---------------------------------------------------------------- blame

  ghost predicate DepChain(p: Plan, path: seq<string>) {
    forall i :: 0 <= i < |path| - 1 ==> path[i] in p.deps && path[i + 1] in p.deps[path[i]]
  }

  /** A skipped step transitively waits for a step that failed or was canceled. */
  lemma {:induction false} SkippedHasCulprit(p: Plan, s: State, n: string) returns (path: seq<string>)
    requires p.Valid() && CarriedSucceeded(p) && CarriedKept(p, s)
    requires LaunchedAfterDeps(p, s) && ResultsJustified(p, s) && ResultsExplained(p, s)
    requires n in p.pos && n in s.results && s.results[n].status == Skipped
    ensures |path| >= 2 && path[0] == n && DepChain(p, path)
    ensures path[|path| - 1] in s.results && s.results[path[|path| - 1]].status in {Failed, Canceled}
    decreases p.pos[n]
  {
    hide Plan.Linked, LaunchedAfterDeps, ResultsJustified;
    var d := FailedDep(p, s, n);
    if s.results[d].status == Skipped {
      var rest := SkippedHasCulprit(p, s, d);
      path := [n] + rest;
    } else {
      path := [n, d];
    }
  }

  lemma FailedDep(p: Plan, s: State, n: string) returns (d: string)
    requires p.Valid() && CarriedSucceeded(p) && CarriedKept(p, s)
    requires LaunchedAfterDeps(p, s) && ResultsJustified(p, s) && ResultsExplained(p, s)
    requires n in p.pos && n in s.results && s.results[n].status == Skipped
    ensures d in p.deps[n] && d in p.pos && d in s.results && s.results[d].status in {Failed, Skipped, Canceled}
  {
    hide LaunchedAfterDeps, ResultsJustified, Plan.Linked, ResultExplained;
    assert n !in p.carry;
    SettledDeps(p, s, n);
    assert !DepsSucceeded(p.deps[n], s.results) by {
      Unfold(p, s, n);
    }
    d :| d in p.deps[n] && s.results[d].status != Success;
    assert d !in p.carry;
    Unfold(p, s, d);
  }

  lemma Unfold(p: Plan, s: State, n: string)
    requires ResultsExplained(p, s) && n in s.results && n !in p.carry && n in p.deps
    ensures s.results[n].status in {Success, Failed, Skipped, Canceled}
    ensures s.results[n].status == Skipped <==> !DepsSucceeded(p.deps[n], s.results)
  {
    assert ResultExplained(p, s.results, n);
  }

  // ---------------------------------------------------------------- the status of the execution

  datatype ExecStatus = ExecPending | ExecRunning | ExecSuccess | ExecFailed | ExecCanceled

  predicate Terminal(status: ExecStatus) {
    status == ExecSuccess || status == ExecFailed || status == ExecCanceled
  }

  /** The status an execution ends with, from the flags of its steps and the state of its context. */
  function Conclude(failed: bool, canceled: bool, ctxErr: bool): ExecStatus {
    if canceled || ctxErr then ExecCanceled else if failed then ExecFailed else ExecSuccess
  }

  predicate Retryable(steps: seq<StepResult>) {
    exists i :: 0 <= i < |steps| && (steps[i].status == Failed || steps[i].status == Skipped)
  }

  predicate AllSucceeded(steps: seq<StepResult>) {
    forall i :: 0 <= i < |steps| ==> steps[i].status == Success
  }

  predicate AnyFailed(steps: seq<StepResult>) {
    exists i :: 0 <= i < |steps| && steps[i].status == Failed
  }

  method HasRetryableSteps(steps: seq<StepResult>) returns (r: bool)
    ensures r <==> Retryable(steps)
    ensures r <==> exists i :: 0 <= i < |steps| && steps[i].status in {Failed, Skipped}
  {
    for i := 0 to |steps|
      invariant forall j :: 0 <= j < i ==> steps[j].status != Failed && steps[j].status != Skipped
    {
      if steps[i].status == Failed || steps[i].status == Skipped {
        return true;
      }
    }
    return false;
  }

  /** The failed step reported as the error of the execution: the first one in order. */
  method FirstFailure(steps: seq<StepResult>) returns (found: bool, index: nat)
    ensures found <==> exists i :: 0 <= i < |steps| && steps[i].status == Failed
    ensures found ==> index < |steps| && steps[index].status == Failed
    ensures found ==> forall i :: 0 <= i < index ==> steps[i].status != Failed
  {
    index := 0;
    while index < |steps|
      invariant index <= |steps|
      invariant forall j :: 0 <= j < index ==> steps[j].status != Failed
    {
      if steps[index].status == Failed {
        return true, index;
      }
      index := index + 1;
    }
    return false, 0;
  }

  /** When the scheduler returns, a step is not successful only because of a failure or a cancellation. */
  lemma FinalFlags(p: Plan, s: State)
    requires OnceInv(p, s, {}) && Explained(p, s) && CarriedSucceeded(p) && s.Final(p)
    ensures s.results.Keys == p.pos.Keys
    ensures !s.failed && !s.canceled <==> forall n :: n in s.results ==> s.results[n].status == Success
    ensures s.failed <==> exists n :: n in s.results && s.results[n].status == Failed
    ensures s.canceled ==> s.ctxDone
  {
    hide Once, NoCarriedLaunch;
    FinalHasAllResults(p, s);
    FlagsFromResults(p, s);
    if !s.failed && !s.canceled {
      forall n | n in s.results ensures s.results[n].status == Success {
        NoFailureNoSkip(p, s, n);
      }
    }
  }

  lemma FlagsFromResults(p: Plan, s: State)
    requires FlagsExplained(p, s) && CarriedKept(p, s) && CarriedSucceeded(p) && s.results.Keys == p.pos.Keys
    ensures s.failed <==> exists n :: n in s.results && s.results[n].status == Failed
    ensures s.canceled <==> exists n :: n in s.results && s.results[n].status == Canceled
    ensures s.canceled ==> s.ctxDone
  {
    forall n | n in s.results && n in p.carry ensures s.results[n].status == Success {
      assert s.results[n] == p.Seed(n);
    }
  }

  lemma NoFailureNoSkip(p: Plan, s: State, n: string)
    requires p.Valid() && CarriedSucceeded(p) && CarriedKept(p, s)
    requires LaunchedAfterDeps(p, s) && ResultsJustified(p, s) && ResultsExplained(p, s)
    requires forall m :: m in s.results ==> s.results[m].status != Failed && s.results[m].status != Canceled
    requires n in p.pos && n in s.results
    ensures s.results[n].status == Success
  {
    hide LaunchedAfterDeps, ResultsJustified, Plan.Linked, Plan.Sorted;
    if n in p.carry {
      assert s.results[n] == p.Seed(n);
    } else {
      Unfold(p, s, n);
      if s.results[n].status == Skipped {
        var path := SkippedHasCulprit(p, s, n);
      }
    }
  }

  /**
   The verdict says of the results what it should: success exactly when the context is live and every step
   succeeded; failure exactly when it is live and some step failed, and then there is a step to retry.
   */
  ghost predicate VerdictMatches(p: Plan, s: State, ctxErr: bool) {
    var out := Vector(p, s.results);
    var status := Conclude(s.failed, s.canceled, ctxErr);
    && (status == ExecSuccess <==> !ctxErr && AllSucceeded(out))
    && (status == ExecFailed <==> !ctxErr && AnyFailed(out))
    && (status == ExecFailed ==> Retryable(out))
    && (status == ExecCanceled <==> ctxErr)
  }

  /** In a complete run that launches no step twice, the verdict agrees with the results. */
  lemma VerdictIff(p: Plan, run: seq<State>, ctxErr: bool)
    requires p.Valid() && CarriedSucceeded(p) && LaunchesOnce(p, run) && run[|run| - 1].Final(p)
    requires run[|run| - 1].ctxDone ==> ctxErr
    ensures VerdictMatches(p, run[|run| - 1], ctxErr)
  {
    hide OnceInv, Explained, Plan.Linked, VerdictMatches, State.Final;
    var s := run[|run| - 1];
    RunExplained(p, run, |run| - 1);
    FinalFlags(p, s);
    FlagsMatch(p, s, ctxErr);
  }

  lemma FlagsMatch(p: Plan, s: State, ctxErr: bool)
    requires p.Valid() && s.results.Keys == p.pos.Keys && (s.ctxDone ==> ctxErr) && (s.canceled ==> s.ctxDone)
    requires !s.failed && !s.canceled <==> forall n :: n in s.results ==> s.results[n].status == Success
    requires s.failed <==> exists n :: n in s.results && s.results[n].status == Failed
    ensures VerdictMatches(p, s, ctxErr)
  {
    hide Plan.Valid, Vector, AllSucceeded, AnyFailed, Retryable;
    VectorFlags(p, s.results);
  }

  lemma VectorFlags(p: Plan, results: map<string, StepResult>)
    requires p.Valid() && results.Keys == p.pos.Keys
    ensures AllSucceeded(Vector(p, results)) <==> forall n :: n in results ==> results[n].status == Success
    ensures AnyFailed(Vector(p, results)) <==> exists n :: n in results && results[n].status == Failed
    ensures AnyFailed(Vector(p, results)) ==> Retryable(Vector(p, results))
  {
    hide Plan.Valid, Vector;
    VectorCovers(p, results);
  }

  lemma VectorCovers(p: Plan, results: map<string, StepResult>)
    requires p.Valid() && results.Keys == p.pos.Keys
    ensures var out := Vector(p, results);
            && |out| == |p.order|
            && (forall i :: 0 <= i < |out| ==> p.order[i] in results && out[i] == results[p.order[i]])
            && (forall n :: n in results ==> p.pos[n] < |out| && out[p.pos[n]] == results[n])
            && ((forall i :: 0 <= i < |out| ==> out[i].status == Success) <==> (forall n :: n in results ==> results[n].status == Success))
            && ((exists i :: 0 <= i < |out| && out[i].status == Failed) <==> (exists n :: n in results && results[n].status == Failed))
  {
    var out := Vector(p, results);
    forall n | n in results ensures p.pos[n] < |out| && out[p.pos[n]] == results[n] {
      assert p.order[p.pos[n]] == n;
    }
    if n :| n in results && results[n].status == Failed {
      assert out[p.pos[n]].status == Failed;
    }
  }
}
