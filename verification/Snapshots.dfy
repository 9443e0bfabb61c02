/**
 Snapshots of the progress, as they are persisted and shown. A step shown running, successful, failed or
 canceled has only dependencies shown successful, as long as nothing but leaves is launched twice.
 */
module Snapshots {
  import opened Steps
  import opened Scheduler
  import opened SchedulerInvariant
  import opened SchedulerConfluence
  import opened SchedulerTermination
  import opened SchedulerOnce
  import opened SchedulerExplained

  // ---------------------------------------------------------------- what is shown is real

  /** Each step is shown with its result, as running when it is, or as pending when it has no result. */
  ghost predicate ProgressReal(s: State) {
    forall n :: n in s.progress ==> Real(s, n)
  }

  ghost predicate Real(s: State, n: string)
    requires n in s.progress
  {
    || (UnderWay(s, n) && s.progress[n] == RunningResult(n))
    || (if n in s.results then s.progress[n] == s.results[n] else s.progress[n] == PendingResult(n))
  }

  /** Only a completion ends what is under way. */
  lemma StillUnderWay(p: Plan, s: State, a: Action, n: string)
    requires Enabled(p, s, a) && UnderWay(s, n) && !(a.Finish? && s.gos[a.k].step == n)
    ensures UnderWay(Apply(p, s, a), n)
  {
    hide Apply, Enabled;
    ExecutingAt(p, s, a);
    var k :| 0 <= k < |s.gos| && s.gos[k].step == n && s.gos[k].phase == Executing;
    assert ExecutingAfter(s, a, k);
    assert Apply(p, s, a).gos[k].step == n && Apply(p, s, a).gos[k].phase == Executing;
  }

  lemma RealStep(p: Plan, s: State, a: Action)
    requires ProgressReal(s) && Enabled(p, s, a)
    ensures ProgressReal(Apply(p, s, a))
  {
    hide Apply, Enabled, UnderWay, Real;
    var t := Apply(p, s, a);
    ShownChanges(p, s, a);
    forall n | n in t.progress ensures Real(t, n) {
      if (a.Finish? || a.Proceed?) && n == s.gos[a.k].step {
        RealOne(p, s, a, n);
      } else {
        SameReal(p, s, a, n);
      }
    }
  }

  lemma ShownChanges(p: Plan, s: State, a: Action)
    requires Enabled(p, s, a)
    ensures a.Finish? || a.Proceed? ==> a.k < |s.gos|
    ensures var t := Apply(p, s, a);
            forall n :: n in t.progress && !((a.Finish? || a.Proceed?) && n == s.gos[a.k].step) ==>
              && n in s.progress && t.progress[n] == s.progress[n]
              && (n in t.results <==> n in s.results) && (n in t.results ==> t.results[n] == s.results[n])
  {
    hide Ready, DepsSucceeded;
  }

  lemma SameReal(p: Plan, s: State, a: Action, n: string)
    requires Enabled(p, s, a) && n in s.progress && Real(s, n) && (a.Finish? ==> a.k < |s.gos| && n != s.gos[a.k].step)
    requires var t := Apply(p, s, a);
             && n in t.progress && t.progress[n] == s.progress[n]
             && (n in t.results <==> n in s.results) && (n in t.results ==> t.results[n] == s.results[n])
    ensures Real(Apply(p, s, a), n)
  {
    hide Apply, Enabled, UnderWay;
    if UnderWay(s, n) {
      StillUnderWay(p, s, a, n);
    }
  }

  /** The step that moves is shown running, or with the result it records. */
  lemma RealOne(p: Plan, s: State, a: Action, n: string)
    requires Enabled(p, s, a) && (a.Finish? || a.Proceed?) && a.k < |s.gos| && n == s.gos[a.k].step
    requires n in Apply(p, s, a).progress && ProgressReal(s)
    ensures Real(Apply(p, s, a), n)
  {
    hide Ready, UnderWay;
    var t := Apply(p, s, a);
    if a.Proceed? {
      if s.ctxDone {
        assert Real(s, n);
        if UnderWay(s, n) {
          StillUnderWay(p, s, a, n);
        }
      } else {
        Executes(t, a.k);
      }
    }
  }

  lemma Executes(s: State, k: nat)
    requires k < |s.gos| && s.gos[k].phase == Executing
    ensures UnderWay(s, s.gos[k].step)
  {
  }

  /** Whatever is launched twice, what a state shows is real. */
  lemma {:induction false} RunReal(p: Plan, run: seq<State>, x: nat)
    requires IsRun(p, run) && run[0] == Init(p) && x < |run|
    ensures ProgressReal(run[x])
  {
    hide ProgressReal, Apply, Enabled;
    if x == 0 {
      InitReal(p);
    } else {
      RunReal(p, run, x - 1);
      assert Next(p, run[x - 1], run[x]);
      var a :| Enabled(p, run[x - 1], a) && run[x] == Apply(p, run[x - 1], a);
      RealStep(p, run[x - 1], a);
    }
  }

  lemma InitReal(p: Plan)
    ensures ProgressReal(Init(p))
  {
  }

  // ---------------------------------------------------------------- what a snapshot says of the dependencies

  /** A step shown running, successful, failed or canceled has only dependencies shown successful. */
  ghost predicate Grounded(p: Plan, progress: map<string, StepResult>) {
    forall n, d :: n in p.deps && d in p.deps[n] && n in progress && progress[n].status in {Running, Success, Failed, Canceled} ==>
      d in progress && progress[d].status == Success
  }

  /** Every snapshot of a run that launches nothing but leaves twice is grounded. */
  lemma SnapshotExplained(p: Plan, run: seq<State>, x: nat, exempt: set<string>)
    requires p.Valid() && CarriedSucceeded(p) && p.Closed() && x < |run|
    requires LaunchesOnceBut(p, run, exempt) && OnlyLeaves(p, exempt)
    ensures Grounded(p, run[x].progress)
  {
    hide OnceInv, Agreed, ProgressReal, CarriedSucceeded, Plan.Closed, OnlyLeaves, Plan.Linked, Plan.Sorted;
    RunAgreed(p, run, x, exempt);
    RunReal(p, run, x);
    RealGrounded(p, run[x], exempt);
  }

  lemma RealGrounded(p: Plan, s: State, exempt: set<string>)
    requires p.Valid() && CarriedSucceeded(p) && p.Closed() && OnceInv(p, s, exempt) && OnlyLeaves(p, exempt)
    requires Agreed(p, s) && ProgressReal(s)
    ensures Grounded(p, s.progress)
  {
    hide OnceInv, Agreed, CarriedSucceeded, Plan.Closed, OnlyLeaves, Plan.Linked, ProgressReal;
    forall n, d | n in p.deps && d in p.deps[n] && n in s.progress && s.progress[n].status in {Running, Success, Failed, Canceled}
      ensures d in s.progress && s.progress[d].status == Success
    {
      ShownMeansDeps(p, s, exempt, n, d);
      ShownSuccess(p, s, exempt, n, d);
    }
  }

  /** What has children is not under way once it has a result. */
  lemma ShownSuccess(p: Plan, s: State, exempt: set<string>, n: string, d: string)
    requires p.Valid() && OnceInv(p, s, exempt) && OnlyLeaves(p, exempt) && ProgressReal(s)
    requires n in p.pos && d in p.deps[n] && d in s.results && s.results[d].status == Success
    ensures d in s.progress && s.progress[d].status == Success
  {
    hide OnceInv, OnlyLeaves, ProgressReal, UnderWay, ProgressKnown, ResultsFresh, Plan.Linked, Plan.Sorted;
    NotALeaf(p, exempt, n, d);
    OnceProgress(p, s, exempt);
    ShownReal(p, s, d);
    NotUnderWay(s, exempt, d);
  }

  lemma NotALeaf(p: Plan, exempt: set<string>, n: string, d: string)
    requires p.Valid() && OnlyLeaves(p, exempt) && n in p.pos && d in p.deps[n]
    ensures d in p.pos && d !in exempt
  {
    assert d in p.pos && n in p.children[d];
  }

  lemma OnceProgress(p: Plan, s: State, exempt: set<string>)
    requires OnceInv(p, s, exempt)
    ensures ProgressKnown(p, s) && ResultsFresh(s, exempt)
  {
    hide NoDoubleLaunch, PendingFresh, ResultsFresh, NoCarriedLaunch, NamesKnown, ProgressKnown, LaunchedAfterDeps, SweepInv, ResultsJustified, Covered, SlotsBounded, Plan.Valid;
  }

  lemma ShownReal(p: Plan, s: State, d: string)
    requires ProgressKnown(p, s) && ProgressReal(s) && d in p.pos
    ensures d in s.progress && Real(s, d)
  {
    hide Real;
  }

  lemma NotUnderWay(s: State, exempt: set<string>, d: string)
    requires ResultsFresh(s, exempt) && d in s.results && d !in exempt
    ensures !UnderWay(s, d)
  {
  }

  lemma ShownMeansDeps(p: Plan, s: State, exempt: set<string>, n: string, d: string)
    requires p.Valid() && CarriedSucceeded(p) && p.Closed() && OnceInv(p, s, exempt) && Agreed(p, s) && ProgressReal(s)
    requires n in p.pos && d in p.deps[n] && n in s.progress && s.progress[n].status in {Running, Success, Failed, Canceled}
    ensures d in s.results && s.results[d].status == Success
  {
    hide OnceInv, PhasesExplained, ResultsExplained, CarriedKept, CarriedSucceeded, Plan.Linked, UnderWay;
    if n in p.carry {
      CarriedIsSuccess(p, s, d);
    } else {
      assert Real(s, n);
      if UnderWay(s, n) {
        RunningDeps(p, s, n);
      } else {
        RecordedDeps(p, s, n);
      }
    }
  }

  lemma RecordedDeps(p: Plan, s: State, n: string)
    requires ResultsExplained(p, s) && n in p.deps && n in s.results && n !in p.carry && s.results[n].status != Skipped
    ensures DepsSucceeded(p.deps[n], s.results)
  {
    assert ResultExplained(p, s.results, n);
  }

  lemma RunningDeps(p: Plan, s: State, n: string)
    requires PhasesExplained(p, s) && UnderWay(s, n) && n in p.deps
    ensures DepsSucceeded(p.deps[n], s.results)
  {
    var k :| 0 <= k < |s.gos| && s.gos[k].step == n && s.gos[k].phase == Executing;
  }

  lemma CarriedIsSuccess(p: Plan, s: State, d: string)
    requires CarriedKept(p, s) && CarriedSucceeded(p) && d in p.pos && d in p.carry
    ensures d in s.results && s.results[d].status == Success
  {
  }

  /** In the end, every step is shown with its result. */
  lemma FinalShown(p: Plan, s: State)
    requires Inv(p, s) && s.Final(p) && ProgressReal(s)
    ensures forall n :: n in s.results ==> n in s.progress && s.progress[n] == s.results[n]
  {
    hide LaunchedAfterDeps, SweepInv, ResultsJustified, Covered, SlotsBounded, Plan.Valid;
    forall n | n in s.results ensures n in s.progress && s.progress[n] == s.results[n] {
      assert Real(s, n);
    }
  }
}
