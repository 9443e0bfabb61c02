/**
 The verdict of an execution against its results. Where a step can be launched twice, its first launch can
 fail and the second one succeed: the execution then ends failed although every result is a success, and
 there is nothing to retry. Where no step can be, verdict and results always agree.
 */
module RaceVerdict {
  import opened Steps
  import opened Scheduler
  import opened SchedulerInvariant
  import opened SchedulerConfluence
  import opened SchedulerTermination
  import opened SchedulerOnce
  import opened SchedulerExplained
  import opened SweepRace
  import opened SingleLaunch
  import opened Schedules
  import opened RaceStage
  import opened Outcome

  /**
   Between the failure of the first launch `k` of `d` and the success of another one, no other step
   moves: `k` has its children still to launch.
   */
  ghost predicate Mended(s: State, d: string, k: nat, l: nat) {
    && !s.ctxDone && !s.canceled && s.failed && d in s.results
    && (forall n :: n in s.results && n != d ==> s.results[n].status == Success)
    && (forall x :: 0 <= x < |s.gos| ==> s.gos[x].phase != Skipping && s.gos[x].phase != Canceling)
    && (s.results[d].status == Success || OnlyLaunchesOf(s, d, k))
    && l < |s.gos| && s.gos[l].step == d && (s.gos[l].Recorded() ==> s.results[d].status == Success)
  }

  ghost predicate OnlyLaunchesOf(s: State, d: string, k: nat) {
    forall x :: 0 <= x < |s.gos| && x != k && s.gos[x].phase != Done ==> s.gos[x].step == d && s.gos[x].Pending() == []
  }

  lemma MendedStart(p: Plan, s: State, t: State, d: string, k: nat, l: nat)
    requires Stage(p, s, d, k, l) && d in p.children && forall c :: c in p.children[d] ==> c in p.deps
    requires FirstDone(p, s, t, k, Chosen(d, {d}))
    ensures Mended(t, d, k, l)
  {
    hide Inv, Ready;
    forall x | 0 <= x < |t.gos| && x != k && t.gos[x].phase != Done ensures t.gos[x].step == d && t.gos[x].Pending() == [] {
      assert t.gos[x] == s.gos[x];
      StuckOrDone(s, d, x);
    }
    assert t.gos[l] == s.gos[l];
    forall x | 0 <= x < |t.gos| ensures t.gos[x].phase != Skipping && t.gos[x].phase != Canceling {
      if x != k {
        assert t.gos[x] == s.gos[x];
      }
    }
  }

  lemma StuckOrDone(s: State, d: string, x: nat)
    requires Settled(HoldStep(d), s) && x < |s.gos| && s.gos[x].phase != Done
    ensures s.gos[x] == Go(d, Waiting)
  {
    assert Stuck(HoldStep(d), s, x);
  }

  /** What a step of the schedule may decide on: dependencies that all succeeded. */
  lemma MendedDeps(p: Plan, s: State, d: string, k: nat, l: nat, x: nat)
    requires p.Valid() && NamesKnown(p, s) && LaunchedAfterDeps(p, s) && Mended(s, d, k, l)
    requires x < |s.gos| && x != k && s.gos[x].phase != Done
    ensures s.gos[x].step in p.deps && DepsSucceeded(p.deps[s.gos[x].step], s.results)
  {
    hide Plan.Linked;
    var n := s.gos[x].step;
    assert DepsSet(p.deps[n], s.results);
    if s.results[d].status != Success {
      assert n == d && n in p.pos;
    }
  }

  lemma MendedStep(p: Plan, s: State, a: Action, d: string, k: nat, l: nat)
    requires p.Valid() && NamesKnown(p, s) && LaunchedAfterDeps(p, s) && Mended(s, d, k, l)
    requires s.i >= |p.listing| && Guided(p, HoldOne(k), {}, s, a)
    ensures Mended(Apply(p, s, a), d, k, l)
  {
    hide Ready, DepsSucceeded, DepsSet, LaunchedAfterDeps, NamesKnown, Plan.Valid;
    assert !a.Sweep? && a.k != k;
    if a.Decide? {
      MendedDeps(p, s, d, k, l, a.k);
    }
    var t := Apply(p, s, a);
    if a.LaunchChild? {
      assert s.gos[a.k].Pending() != [];
      MendedLaunch(p, s, a, d, k, l);
    } else {
      assert |t.gos| == |s.gos| && forall x :: 0 <= x < |s.gos| && x != a.k ==> t.gos[x] == s.gos[x];
      assert t.gos[a.k].step == s.gos[a.k].step;
    }
  }

  lemma MendedLaunch(p: Plan, s: State, a: Action, d: string, k: nat, l: nat)
    requires Mended(s, d, k, l) && Enabled(p, s, a) && a.LaunchChild? && a.k != k
    ensures Mended(Apply(p, s, a), d, k, l)
  {
    var t := Apply(p, s, a);
    assert s.gos[a.k].Pending() != [];
    assert s.results[d].status == Success;
    assert forall x :: 0 <= x < |s.gos| && x != a.k ==> t.gos[x] == s.gos[x];
  }

  lemma {:induction false} MendedAlong(p: Plan, run: seq<State>, x: nat, d: string, k: nat, l: nat)
    requires IsGuidedRun(p, HoldOne(k), {}, run) && Inv(p, run[0]) && run[0].i >= |p.listing| && x < |run|
    requires Mended(run[0], d, k, l)
    ensures Mended(run[x], d, k, l)
  {
    hide Mended, Guided, Apply, Inv;
    if x > 0 {
      MendedAlong(p, run, x - 1, d, k, l);
      SweptAt(p, HoldOne(k), {}, run, x - 1);
      assert NextGuided(p, HoldOne(k), {}, run[x - 1], run[x]);
      var a :| Enabled(p, run[x - 1], a) && Guided(p, HoldOne(k), {}, run[x - 1], a) && run[x] == Apply(p, run[x - 1], a);
      InvParts(p, run[x - 1]);
      MendedStep(p, run[x - 1], a, d, k, l);
    }
  }

  lemma SweptAt(p: Plan, h: Hold, bad: set<string>, run: seq<State>, x: nat)
    requires IsGuidedRun(p, h, bad, run) && Inv(p, run[0]) && x < |run|
    ensures Inv(p, run[x]) && run[x].i >= run[0].i
  {
    hide IsGuidedRun, Inv;
    GuidedIsRun(p, h, bad, run);
    InvAlong(p, run, x);
    IndexAlong(p, run, x);
  }

  lemma InvParts(p: Plan, s: State)
    requires Inv(p, s)
    ensures p.Valid() && NamesKnown(p, s) && LaunchedAfterDeps(p, s)
  {
  }

  /** With everything but `k` done, the other launch of `d` has mended its result. */
  lemma MendedEnd(s: State, d: string, k: nat, l: nat)
    requires Mended(s, d, k, l) && Settled(HoldOne(k), s) && l != k
    ensures AllGood(s) && s.failed
  {
    assert s.gos[l].phase == Done || Stuck(HoldOne(k), s, l);
  }

  lemma {:induction false} FailedAlong(p: Plan, run: seq<State>, x: nat)
    requires IsRun(p, run) && run[0].failed && x < |run|
    ensures run[x].failed
  {
    if x > 0 {
      FailedAlong(p, run, x - 1);
      assert Next(p, run[x - 1], run[x]);
      var a :| Enabled(p, run[x - 1], a) && run[x] == Apply(p, run[x - 1], a);
      FailedStays(p, run[x - 1], a);
    }
  }

  lemma FailedStays(p: Plan, s: State, a: Action)
    requires Enabled(p, s, a) && s.failed
    ensures Apply(p, s, a).failed
  {
    hide Ready, DepsSucceeded;
  }

  /** From the stage: the first launch fails, another succeeds, and everything ends well but for the flag. */
  lemma MendedRun(p: Plan, s: State, d: string, k: nat, l: nat) returns (run: seq<State>)
    requires Stage(p, s, d, k, l)
    ensures run != [] && IsRun(p, run) && run[0] == s
    ensures var t := run[|run| - 1]; t.Final(p) && AllGood(t) && t.failed
  {
    hide Inv, Settled, HeldUp, AllGood, IsRun, IsGuidedRun, FirstDone, Mended, State.Final;
    var fail := FirstFinishes(p, s, d, k, l, {d});
    var t := fail[|fail| - 1];
    MendedStart(p, s, t, d, k, l);
    DoneIndex(p, s, t, k, Chosen(d, {d}));
    var mend := Settle(p, HoldOne(k), {}, t);
    MendedAlong(p, mend, |mend| - 1, d, k, l);
    var u := mend[|mend| - 1];
    MendedEnd(u, d, k, l);
    var end := Settle(p, HoldNone, {}, u);
    GoodAlong(p, HoldNone, end, |end| - 1);
    FreeIsFinal(p, end[|end| - 1]);
    GuidedIsRun(p, HoldOne(k), {}, mend);
    GuidedIsRun(p, HoldNone, {}, end);
    FailedAlong(p, end, |end| - 1);
    Join(p, mend, end);
    var tail := mend + end[1..];
    Join(p, fail, tail);
    run := fail + tail[1..];
  }

  lemma DoneIndex(p: Plan, s: State, t: State, k: nat, res: StepResult)
    requires k < |s.gos| && s.gos[k].step in p.children && forall c :: c in p.children[s.gos[k].step] ==> c in p.deps
    requires FirstDone(p, s, t, k, res)
    ensures t.i == s.i
  {
  }

  lemma MendedFromStart(p: Plan, n: string) returns (run: seq<State>)
    requires p.Valid() && CarriedSucceeded(p) && Doubles(p, n)
    ensures run != [] && IsRun(p, run) && run[0] == Init(p)
    ensures var s := run[|run| - 1]; s.Final(p) && AllGood(s) && s.failed && Inv(p, s)
  {
    hide Inv, Doubles, Stage, IsRun, State.Final, CarriedSucceeded, AllGood, Plan.Valid;
    var stage, k, l := SetAnyStage(p, n);
    var end := MendedRun(p, stage[|stage| - 1], n, k, l);
    Join(p, stage, end);
    run := stage + end[1..];
    InitInv(p);
    InvAlong(p, run, |run| - 1);
  }

  /** A step that can be launched twice lets an execution fail with every result a success, and nothing to retry. */
  lemma FailsWithoutFailure(p: Plan, n: string) returns (run: seq<State>)
    requires p.Valid() && CarriedSucceeded(p) && Doubles(p, n)
    ensures IsCompleteRun(p, run)
    ensures var s := run[|run| - 1]; var out := Vector(p, s.results);
            && s.failed && !s.canceled && !s.ctxDone
            && Conclude(s.failed, s.canceled, false) == ExecFailed
            && AllSucceeded(out) && !Retryable(out)
  {
    hide Inv, Doubles, IsRun, State.Final, CarriedSucceeded, Plan.Valid;
    run := MendedFromStart(p, n);
    GoodVector(p, run[|run| - 1]);
  }

  lemma GoodVector(p: Plan, s: State)
    requires Inv(p, s) && s.Final(p) && AllGood(s)
    ensures AllSucceeded(Vector(p, s.results))
  {
    hide NamesKnown, ProgressKnown, LaunchedAfterDeps, SweepInv, ResultsJustified, Covered, SlotsBounded, Plan.Keyed, Plan.Linked, Plan.Sorted;
    FinalHasAllResults(p, s);
    VectorCovers(p, s.results);
  }

  // ---------------------------------------------------------------- the exact condition

  ghost predicate IsCompleteRun(p: Plan, run: seq<State>) {
    run != [] && IsRun(p, run) && run[0] == Init(p) && run[|run| - 1].Final(p)
  }

  /** The execution's context is done when the steps' is, and may be done afterwards. */
  ghost predicate VerdictAgrees(p: Plan, run: seq<State>, ctxErr: bool)
    requires run != []
  {
    (run[|run| - 1].ctxDone ==> ctxErr) ==> VerdictMatches(p, run[|run| - 1], ctxErr)
  }

  ghost predicate AlwaysAgrees(p: Plan) {
    forall run: seq<State>, ctxErr: bool :: IsCompleteRun(p, run) ==> VerdictAgrees(p, run, ctxErr)
  }

  /**
   The verdict of every complete run agrees with its results exactly when no declared position races and
   no step repeats a dependency that can be its last one.
   */
  lemma VerdictAgreesIff(p: Plan)
    requires p.Valid() && p.Closed() && CarriedSucceeded(p)
    ensures AlwaysAgrees(p) <==> NoRepeats(p) && forall x :: 0 <= x < |p.listing| ==> !RaceAt(p, x)
  {
    hide RaceAt, NoRepeats, Doubles, Plan.Closed, Plan.Valid, CarriedSucceeded, VerdictMatches, IsRun, State.Final;
    NoDoubles(p);
    if n :| Doubles(p, n) {
      var run := FailsWithoutFailure(p, n);
      Disagrees(p, run[|run| - 1]);
      assert !VerdictAgrees(p, run, false);
    } else {
      forall run: seq<State>, ctxErr: bool | IsCompleteRun(p, run) ensures VerdictAgrees(p, run, ctxErr) {
        RaceFreeRunLaunchesOnce(p, run);
        if run[|run| - 1].ctxDone ==> ctxErr {
          VerdictIff(p, run, ctxErr);
        }
      }
    }
  }

  lemma Disagrees(p: Plan, s: State)
    requires s.failed && !s.canceled && AllSucceeded(Vector(p, s.results))
    ensures !VerdictMatches(p, s, false)
  {
  }
}
