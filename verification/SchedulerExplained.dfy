/**
 Statuses are explained. In a run that launches nothing but leaves twice, a step runs, succeeds, fails or
 is canceled only after all its dependencies succeeded, and it is skipped only because something it
 transitively waits for failed or was canceled. When leaves are launched once as well, the flags the
 scheduler returns, and the status the execution ends with, follow from the results.
 */
module SchedulerExplained {
  import opened Steps
  import opened Scheduler
  import opened SchedulerInvariant
  import opened SchedulerConfluence
  import opened SchedulerTermination
  import opened SchedulerOnce
  import opened SweepRace

  /** A run from the start in which no state launches a step twice, exempt ones aside. */
  ghost predicate LaunchesOnceBut(p: Plan, run: seq<State>, exempt: set<string>) {
    IsRun(p, run) && run[0] == Init(p) && forall x :: 0 <= x < |run| ==> OnceInv(p, run[x], exempt)
  }

  /** A run from the start in which no state launches a step twice. */
  ghost predicate LaunchesOnce(p: Plan, run: seq<State>) {
    LaunchesOnceBut(p, run, {})
  }

  lemma AtomicRunLaunchesOnce(p: Plan, run: seq<State>)
    requires p.Valid() && p.Closed() && NoRepeats(p) && IsAtomicRun(p, run)
    ensures LaunchesOnce(p, run)
  {
    hide OnceInv, SweepAlone, NoRepeats, Plan.Closed, Enabled, Apply;
    forall x | 0 <= x < |run| - 1 ensures Next(p, run[x], run[x + 1]) {
      assert NextAtomic(p, run[x], run[x + 1]);
    }
    forall x | 0 <= x < |run| ensures OnceInv(p, run[x], {}) {
      AtomicRunOnce(p, run, x);
    }
  }

  /** Without racing positions and repeated dependencies that come last, exempt steps aside, launches are single. */
  lemma RunLaunchesOnceBut(p: Plan, run: seq<State>, exempt: set<string>)
    requires p.Valid() && p.Closed() && IsRun(p, run) && run[0] == Init(p)
    requires RepeatsExempt(p, exempt) && OnlyLeaves(p, exempt) && RacesExempt(p, exempt)
    ensures LaunchesOnceBut(p, run, exempt)
  {
    hide OnceInv, RepeatsExempt, OnlyLeaves, RacesExempt, Plan.Closed;
    forall x | 0 <= x < |run| ensures OnceInv(p, run[x], exempt) {
      NoRaceRun(p, run, x, exempt);
    }
  }

  lemma RaceFreeRunLaunchesOnce(p: Plan, run: seq<State>)
    requires p.Valid() && p.Closed() && NoRepeats(p) && IsRun(p, run) && run[0] == Init(p)
    requires forall y :: 0 <= y < |p.listing| ==> !RaceAt(p, y)
    ensures LaunchesOnce(p, run)
  {
    hide LaunchesOnceBut, NoRepeats, RepeatsExempt, Plan.Closed, RaceAt, IsRun;
    NoneExempt(p);
    RunLaunchesOnceBut(p, run, {});
  }

  ghost predicate CarriedSucceeded(p: Plan) {
    forall n :: n in p.pos && n in p.carry ==> p.Seed(n).status == Success
  }

  // ---------------------------------------------------------------- invariants

  /** Goroutines past the decision decided on dependencies as they still are. */
  ghost predicate PhasesExplained(p: Plan, s: State) {
    forall k :: 0 <= k < |s.gos| && s.gos[k].step in p.deps ==>
      && (s.gos[k].phase in {Cleared, Canceling, Executing} ==> DepsSucceeded(p.deps[s.gos[k].step], s.results))
      && (s.gos[k].phase == Skipping ==> !DepsSucceeded(p.deps[s.gos[k].step], s.results))
  }

  /** A recorded status is final, and agrees with the dependencies. */
  ghost predicate ResultsExplained(p: Plan, s: State) {
    forall n :: n in s.results && n !in p.carry && n in p.deps ==> ResultExplained(p, s.results, n)
  }

  ghost predicate ResultExplained(p: Plan, results: map<string, StepResult>, n: string)
    requires n in results && n in p.deps
  {
    && results[n].status in {Success, Failed, Skipped, Canceled}
    && (results[n].status == Skipped <==> !DepsSucceeded(p.deps[n], results))
  }

  /** The persisted progress shows the recorded result, or running, or pending. */
  ghost predicate ProgressExplained(p: Plan, s: State) {
    forall n :: n in s.progress ==>
      if n in s.results then s.progress[n] == s.results[n]
      else if UnderWay(s, n) then s.progress[n] == RunningResult(n)
      else s.progress[n] == PendingResult(n)
  }

  ghost predicate UnderWay(s: State, n: string) {
    exists k :: 0 <= k < |s.gos| && s.gos[k].step == n && s.gos[k].phase == Executing
  }

  ghost predicate FlagsExplained(p: Plan, s: State) {
    && (s.failed <==> exists n :: n in s.results && n !in p.carry && s.results[n].status == Failed)
    && (s.canceled <==> exists n :: n in s.results && n !in p.carry && s.results[n].status == Canceled)
    && (s.canceled || (exists k :: 0 <= k < |s.gos| && s.gos[k].phase == Canceling) ==> s.ctxDone)
  }

  /** Carried results are the seeds, untouched. */
  ghost predicate CarriedKept(p: Plan, s: State) {
    forall n :: n in p.pos && n in p.carry ==> n in s.results && s.results[n] == p.Seed(n)
  }

  /** What goroutines do, and what is recorded, agrees with the dependencies. */
  ghost predicate Agreed(p: Plan, s: State) {
    PhasesExplained(p, s) && ResultsExplained(p, s) && CarriedKept(p, s)
  }

  ghost predicate Explained(p: Plan, s: State) {
    Agreed(p, s) && ProgressExplained(p, s) && FlagsExplained(p, s)
  }

  lemma InitExplained(p: Plan)
    requires p.Keyed()
    ensures Explained(p, Init(p))
  {
  }

  // ---------------------------------------------------------------- preservation

  lemma OtherDeps(deps: seq<string>, results: map<string, StepResult>, d: string, res: StepResult)
    requires d !in deps
    ensures DepsSucceeded(deps, results[d := res]) <==> DepsSucceeded(deps, results)
  {
  }

  /** A step with children gets its result once, so no settled dependency changes. */
  lemma SettledStays(p: Plan, s: State, k: nat, exempt: set<string>, n: string)
    requires p.Keyed() && p.Linked() && ResultsFresh(s, exempt) && OnlyLeaves(p, exempt) && NamesKnown(p, s)
    requires k < |s.gos| && !s.gos[k].Recorded() && n in p.pos && DepsSet(p.deps[n], s.results)
    ensures s.gos[k].step !in p.deps[n]
  {
    hide ResultsFresh;
    var d := s.gos[k].step;
    if d in p.deps[n] {
      assert n in p.children[d];
      FreshUntilRecorded(s, k, exempt);
    }
  }

  lemma FreshUntilRecorded(s: State, k: nat, exempt: set<string>)
    requires ResultsFresh(s, exempt) && k < |s.gos| && !s.gos[k].Recorded() && s.gos[k].step !in exempt
    ensures s.gos[k].step !in s.results
  {
  }

  lemma PhasesStep(p: Plan, s: State, a: Action, exempt: set<string>)
    requires p.Keyed() && p.Linked() && ResultsFresh(s, exempt) && OnlyLeaves(p, exempt) && NamesKnown(p, s)
    requires LaunchedAfterDeps(p, s) && PhasesExplained(p, s) && Enabled(p, s, a)
    ensures PhasesExplained(p, Apply(p, s, a))
  {
    hide Apply, Enabled, DepsSucceeded, DepsSet, ResultsFresh, OnlyLeaves, NamesKnown, Plan.Linked, LaunchedAfterDeps, PhasesExplained;
    if a.Finish? {
      PhasesFinish(p, s, a.k, a.res, exempt);
    } else {
      PhasesMove(p, s, a);
    }
  }

  lemma PhasesMove(p: Plan, s: State, a: Action)
    requires PhasesExplained(p, s) && Enabled(p, s, a) && !a.Finish?
    ensures PhasesExplained(p, Apply(p, s, a))
  {
    hide Ready, DepsSucceeded;
    var t := Apply(p, s, a);
    forall k | 0 <= k < |t.gos| && t.gos[k].step in p.deps
      ensures t.gos[k].phase in {Cleared, Canceling, Executing} ==> DepsSucceeded(p.deps[t.gos[k].step], t.results)
      ensures t.gos[k].phase == Skipping ==> !DepsSucceeded(p.deps[t.gos[k].step], t.results)
    {
      if k < |s.gos| {
        assert t.gos[k].step == s.gos[k].step;
      }
    }
  }

  lemma PhasesFinish(p: Plan, s: State, k: nat, res: StepResult, exempt: set<string>)
    requires p.Keyed() && p.Linked() && ResultsFresh(s, exempt) && OnlyLeaves(p, exempt) && NamesKnown(p, s)
    requires LaunchedAfterDeps(p, s) && PhasesExplained(p, s) && Enabled(p, s, Finish(k, res))
    ensures PhasesExplained(p, Apply(p, s, Finish(k, res)))
  {
    hide Ready, DepsSucceeded, DepsSet, ResultsFresh, OnlyLeaves, NamesKnown, Plan.Linked, LaunchedAfterDeps;
    var t := Apply(p, s, Finish(k, res));
    forall x | 0 <= x < |t.gos| && t.gos[x].step in p.deps
      ensures t.gos[x].phase in {Cleared, Canceling, Executing} ==> DepsSucceeded(p.deps[t.gos[x].step], t.results)
      ensures t.gos[x].phase == Skipping ==> !DepsSucceeded(p.deps[t.gos[x].step], t.results)
    {
      if x != k {
        assert t.gos[x] == s.gos[x];
        FinishedDeps(p, s, x);
        SettledStays(p, s, k, exempt, s.gos[x].step);
        OtherDeps(p.deps[s.gos[x].step], s.results, s.gos[k].step, res);
      }
    }
  }

  lemma ResultsStep(p: Plan, s: State, a: Action, exempt: set<string>)
    requires p.Keyed() && p.Linked() && ResultsFresh(s, exempt) && OnlyLeaves(p, exempt) && NamesKnown(p, s)
    requires LaunchedAfterDeps(p, s) && ResultsJustified(p, s)
    requires PhasesExplained(p, s) && ResultsExplained(p, s) && Enabled(p, s, a)
    ensures ResultsExplained(p, Apply(p, s, a))
  {
    hide Apply, Enabled, DepsSucceeded, DepsSet, LaunchedAfterDeps, ResultsJustified, ResultsFresh, OnlyLeaves, NamesKnown, Plan.Linked;
    if a.Finish? {
      ResultsFinish(p, s, a.k, a.res, exempt);
    } else {
      OnlyFinishRecords(p, s, a);
      assert forall m :: m in s.results && m !in p.carry && m in p.deps ==> ResultExplained(p, s.results, m);
    }
  }

  lemma ResultsFinish(p: Plan, s: State, k: nat, res: StepResult, exempt: set<string>)
    requires p.Keyed() && p.Linked() && ResultsFresh(s, exempt) && OnlyLeaves(p, exempt) && NamesKnown(p, s)
    requires LaunchedAfterDeps(p, s) && ResultsJustified(p, s)
    requires PhasesExplained(p, s) && ResultsExplained(p, s) && Enabled(p, s, Finish(k, res))
    ensures ResultsExplained(p, Apply(p, s, Finish(k, res)))
  {
    hide Ready, DepsSucceeded, DepsSet, LaunchedAfterDeps, ResultsJustified, ResultsFresh, OnlyLeaves, NamesKnown, Plan.Linked;
    var t := Apply(p, s, Finish(k, res));
    var n := s.gos[k].step;
    forall m | m in t.results && m !in p.carry && m in p.deps ensures ResultExplained(p, t.results, m) {
      if m == n {
        FinishedDeps(p, s, k);
      } else {
        SettledDeps(p, s, m);
        assert ResultExplained(p, s.results, m);
      }
      SettledStays(p, s, k, exempt, m);
      OtherDeps(p.deps[m], s.results, n, res);
    }
  }

  lemma FinishedDeps(p: Plan, s: State, k: nat)
    requires LaunchedAfterDeps(p, s) && k < |s.gos|
    ensures s.gos[k].step in p.deps && DepsSet(p.deps[s.gos[k].step], s.results)
  {
  }

  lemma SingleGoroutine(s: State, k: nat)
    requires NoDoubleLaunch(s, {}) && k < |s.gos|
    ensures forall x :: 0 <= x < |s.gos| && s.gos[x].step == s.gos[k].step ==> x == k
  {
  }

  lemma UnderWayStep(p: Plan, s: State, a: Action, n: string)
    requires Enabled(p, s, a) && NoDoubleLaunch(s, {})
    ensures var t := Apply(p, s, a);
            UnderWay(t, n) <==>
              if a.Proceed? && n == s.gos[a.k].step then !s.ctxDone
              else if a.Finish? && n == s.gos[a.k].step then false
              else UnderWay(s, n)
  {
    hide Apply, Enabled, NoDoubleLaunch;
    var t := Apply(p, s, a);
    ExecutingAt(p, s, a);
    if a.Proceed? || a.Finish? {
      SingleGoroutine(s, a.k);
    }
    if UnderWay(s, n) && !(a.Finish? && n == s.gos[a.k].step) {
      var k :| 0 <= k < |s.gos| && s.gos[k].step == n && s.gos[k].phase == Executing;
      assert t.gos[k].step == n && t.gos[k].phase == Executing;
    }
    if a.Proceed? && !s.ctxDone && n == s.gos[a.k].step {
      assert t.gos[a.k].step == n && t.gos[a.k].phase == Executing;
    }
  }

  /** Whether goroutine `k` is executing after the transition. */
  ghost predicate ExecutingAfter(s: State, a: Action, k: nat) {
    k < |s.gos| && if a.Proceed? && k == a.k then !s.ctxDone else if a.Finish? && k == a.k then false else s.gos[k].phase == Executing
  }

  lemma ExecutingAt(p: Plan, s: State, a: Action)
    requires Enabled(p, s, a)
    ensures var t := Apply(p, s, a);
            && |s.gos| <= |t.gos|
            && (a.Proceed? ==> a.k < |s.gos| && s.gos[a.k].phase != Executing)
            && (a.Finish? ==> a.k < |s.gos|)
            && (forall k :: 0 <= k < |s.gos| ==> t.gos[k].step == s.gos[k].step)
            && (forall k :: 0 <= k < |t.gos| ==> (t.gos[k].phase == Executing <==> ExecutingAfter(s, a, k)))
  {
    hide Ready, DepsSucceeded;
    StepGrows(p, s, a);
    var t := Apply(p, s, a);
    forall k | 0 <= k < |t.gos| ensures t.gos[k].phase == Executing <==> ExecutingAfter(s, a, k) {
      ExecutingOne(p, s, a, k);
    }
  }

  lemma ExecutingOne(p: Plan, s: State, a: Action, k: nat)
    requires Enabled(p, s, a) && k < |Apply(p, s, a).gos|
    ensures Apply(p, s, a).gos[k].phase == Executing <==> ExecutingAfter(s, a, k)
  {
    hide Ready, DepsSucceeded, DepsSet;
    match a
    case Sweep =>
    case CancelContext =>
    case LaunchChild(x) =>
    case _ =>
      if k != a.k {
        assert Apply(p, s, a).gos[k] == s.gos[k];
      }
  }

  lemma ProgressExplainedStep(p: Plan, s: State, a: Action)
    requires NoDoubleLaunch(s, {}) && ResultsFresh(s, {}) && ProgressExplained(p, s) && Enabled(p, s, a)
    ensures ProgressExplained(p, Apply(p, s, a))
  {
    hide Ready, DepsSucceeded, UnderWay;
    var t := Apply(p, s, a);
    forall n | n in t.progress
      ensures if n in t.results then t.progress[n] == t.results[n]
              else if UnderWay(t, n) then t.progress[n] == RunningResult(n)
              else t.progress[n] == PendingResult(n)
    {
      UnderWayStep(p, s, a, n);
      if a.Proceed? && n == s.gos[a.k].step {
        assert !s.gos[a.k].Recorded();
        SingleUnderWay(s, a.k);
      }
    }
  }

  lemma SingleUnderWay(s: State, k: nat)
    requires NoDoubleLaunch(s, {}) && k < |s.gos| && s.gos[k].phase != Executing
    ensures !UnderWay(s, s.gos[k].step)
  {
  }

  lemma FlagsStep(p: Plan, s: State, a: Action)
    requires NoCarriedLaunch(p, s) && ResultsFresh(s, {}) && FlagsExplained(p, s) && Enabled(p, s, a)
    ensures FlagsExplained(p, Apply(p, s, a))
  {
    hide Ready, DepsSucceeded;
    var t := Apply(p, s, a);
    if a.Finish? {
      FinishFlags(p, s, a.k, a.res);
    } else {
      assert t.results == s.results && t.failed == s.failed && t.canceled == s.canceled;
      CancelingNeedsContext(p, s, a);
    }
  }

  lemma CancelingNeedsContext(p: Plan, s: State, a: Action)
    requires FlagsExplained(p, s) && Enabled(p, s, a)
    ensures (exists k :: 0 <= k < |Apply(p, s, a).gos| && Apply(p, s, a).gos[k].phase == Canceling) ==> Apply(p, s, a).ctxDone
  {
    hide Ready, DepsSucceeded;
    var t := Apply(p, s, a);
    forall k | 0 <= k < |t.gos| && t.gos[k].phase == Canceling ensures t.ctxDone {
      if k < |s.gos| && s.gos[k].phase == Canceling {
        assert s.ctxDone;
      }
    }
  }

  lemma FinishFlags(p: Plan, s: State, k: nat, res: StepResult)
    requires NoCarriedLaunch(p, s) && ResultsFresh(s, {}) && FlagsExplained(p, s) && Enabled(p, s, Finish(k, res))
    ensures FlagsExplained(p, Apply(p, s, Finish(k, res)))
  {
    hide Ready, DepsSucceeded;
    var t := Apply(p, s, Finish(k, res));
    var n := s.gos[k].step;
    assert n !in s.results && n !in p.carry;
    assert t.results == s.results[n := res];
    assert t.results[n] == res;
    assert forall m :: m in s.results ==> m != n && t.results[m] == s.results[m];
    CancelingNeedsContext(p, s, Finish(k, res));
    assert res.status == Canceled ==> s.ctxDone by {
      if s.gos[k].phase == Canceling {
      }
    }
  }

  lemma AgreedStep(p: Plan, s: State, a: Action, exempt: set<string>)
    requires OnceInv(p, s, exempt) && OnlyLeaves(p, exempt) && Agreed(p, s) && Enabled(p, s, a)
    ensures Agreed(p, Apply(p, s, a))
  {
    hide Apply, Enabled, PhasesExplained, ResultsExplained, CarriedKept, OnlyLeaves, Plan.Linked, Plan.Sorted;
    hide NoDoubleLaunch, PendingFresh, ResultsFresh, NoCarriedLaunch, LaunchedAfterDeps, ResultsJustified, NamesKnown, Covered;
    PhasesStep(p, s, a, exempt);
    ResultsStep(p, s, a, exempt);
    CarriedKeptStep(p, s, a);
  }

  lemma ExplainedStep(p: Plan, s: State, a: Action)
    requires OnceInv(p, s, {}) && Explained(p, s) && Enabled(p, s, a)
    ensures Explained(p, Apply(p, s, a))
  {
    hide Apply, Enabled, Agreed, ProgressExplained, FlagsExplained, Inv;
    hide NoDoubleLaunch, PendingFresh, ResultsFresh, NoCarriedLaunch;
    AgreedStep(p, s, a, {});
    ProgressExplainedStep(p, s, a);
    FlagsStep(p, s, a);
  }

  lemma CarriedKeptStep(p: Plan, s: State, a: Action)
    requires NoCarriedLaunch(p, s) && CarriedKept(p, s) && Enabled(p, s, a)
    ensures CarriedKept(p, Apply(p, s, a))
  {
    hide Ready, DepsSucceeded;
  }

  /** Every state of a run that launches no step twice is explained. */
  lemma {:induction false} RunExplained(p: Plan, run: seq<State>, x: nat)
    requires p.Keyed() && LaunchesOnce(p, run) && x < |run|
    ensures Explained(p, run[x])
  {
    hide Explained, OnceInv, Plan.Keyed;
    if x == 0 {
      InitExplained(p);
    } else {
      RunExplained(p, run, x - 1);
      assert Next(p, run[x - 1], run[x]);
      var a :| Enabled(p, run[x - 1], a) && run[x] == Apply(p, run[x - 1], a);
      ExplainedStep(p, run[x - 1], a);
    }
  }

  /** In every state of a run that launches nothing but leaves twice, results agree with the dependencies. */
  lemma {:induction false} RunAgreed(p: Plan, run: seq<State>, x: nat, exempt: set<string>)
    requires p.Keyed() && LaunchesOnceBut(p, run, exempt) && OnlyLeaves(p, exempt) && x < |run|
    ensures Agreed(p, run[x])
  {
    hide Agreed, OnceInv, Plan.Keyed, OnlyLeaves;
    if x == 0 {
      InitAgreed(p);
    } else {
      RunAgreed(p, run, x - 1, exempt);
      assert Next(p, run[x - 1], run[x]);
      var a :| Enabled(p, run[x - 1], a) && run[x] == Apply(p, run[x - 1], a);
      AgreedStep(p, run[x - 1], a, exempt);
    }
  }

  lemma InitAgreed(p: Plan)
    requires p.Keyed()
    ensures Agreed(p, Init(p))
  {
  }
}
