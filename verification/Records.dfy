/**
 Where recorded results come from. A success or a failure is what running the step yielded; a step is skipped
 without being run; and what the context stops before it runs is recorded as canceled, and never runs.
 */
module Records {
  import opened Sequences
  import opened Steps
  import opened Scheduler
  import opened SchedulerInvariant
  import opened SchedulerTermination

  /** The transition after `run[y]` is goroutine `k` recording `res` for `n`. */
  ghost predicate RecordedAt(p: Plan, run: seq<State>, y: nat, k: nat, n: string, res: StepResult) {
    && y + 1 < |run| && k < |run[y].gos| && run[y].gos[k].step == n
    && Enabled(p, run[y], Finish(k, res)) && run[y + 1] == Apply(p, run[y], Finish(k, res))
  }

  /** Every result that is not carried was recorded by the last of its launches to complete so far. */
  lemma {:induction false} ResultOrigin(p: Plan, run: seq<State>, x: nat, n: string) returns (y: nat, k: nat)
    requires IsRun(p, run) && run[0] == Init(p) && x < |run| && n in run[x].results && n !in p.carry
    ensures y < x && RecordedAt(p, run, y, k, n, run[x].results[n])
    decreases x
  {
    hide Enabled, Apply, Plan.Seed;
    if x == 0 {
      NothingYet(p, n);
    } else {
      var s := run[x - 1];
      assert Next(p, s, run[x]);
      var a :| Enabled(p, s, a) && run[x] == Apply(p, s, a);
      if n in s.results && !(a.Finish? && a.k < |s.gos| && s.gos[a.k].step == n) {
        Unrecorded(p, s, a, n);
        y, k := ResultOrigin(p, run, x - 1, n);
      } else {
        NewlyRecorded(p, s, a, n);
        y, k := x - 1, a.k;
      }
    }
  }

  lemma NothingYet(p: Plan, n: string)
    requires n !in p.carry
    ensures n !in Init(p).results
  {
  }

  lemma Unrecorded(p: Plan, s: State, a: Action, n: string)
    requires Enabled(p, s, a) && n in s.results && !(a.Finish? && a.k < |s.gos| && s.gos[a.k].step == n)
    ensures n in Apply(p, s, a).results && Apply(p, s, a).results[n] == s.results[n]
  {
    hide Ready, DepsSucceeded;
  }

  lemma NewlyRecorded(p: Plan, s: State, a: Action, n: string)
    requires Enabled(p, s, a) && n in Apply(p, s, a).results
    requires n !in s.results || (a.Finish? && a.k < |s.gos| && s.gos[a.k].step == n)
    ensures a.Finish? && a.k < |s.gos| && s.gos[a.k].step == n && Apply(p, s, a).results[n] == a.res
  {
    hide Ready, DepsSucceeded;
  }

  /** What each kind of goroutine may record, and what it does to the flags. */
  lemma RecordMeans(p: Plan, s: State, k: nat, res: StepResult)
    requires Enabled(p, s, Finish(k, res))
    ensures k < |s.gos| && res.name == s.gos[k].step
    ensures s.gos[k].phase in {Executing, Skipping, Canceling}
    ensures s.gos[k].phase == Executing ==> res.status in {Success, Failed, Canceled} && (res.status == Canceled ==> s.ctxDone)
    ensures s.gos[k].phase == Skipping ==> res == StepResult(s.gos[k].step, Skipped, 0, "")
    ensures s.gos[k].phase == Canceling ==> res == StepResult(s.gos[k].step, Canceled, 0, "canceled")
    ensures var t := Apply(p, s, Finish(k, res));
            && (t.failed <==> s.failed || res.status == Failed)
            && (t.canceled <==> s.canceled || res.status == Canceled)
  {
    hide Ready;
  }

  /**
   A recorded success or failure is what the step yielded when it was run; a skipped step was not run; and a
   canceled one was stopped by the context.
   */
  lemma RecordedWhy(p: Plan, run: seq<State>, x: nat, n: string) returns (y: nat, k: nat)
    requires IsRun(p, run) && run[0] == Init(p) && x < |run| && n in run[x].results && n !in p.carry
    ensures y < x && RecordedAt(p, run, y, k, n, run[x].results[n])
    ensures var res := run[x].results[n]; var phase := run[y].gos[k].phase;
            && (res.status == Success || res.status == Failed ==> phase == Executing)
            && (res.status == Skipped <==> phase == Skipping)
            && (res.status == Canceled ==> run[y].ctxDone || phase == Canceling)
            && (phase == Canceling ==> res.status == Canceled)
            && res.status in {Success, Failed, Skipped, Canceled}
  {
    hide IsRun, Enabled, Apply;
    y, k := ResultOrigin(p, run, x, n);
    RecordMeans(p, run[y], k, run[x].results[n]);
  }

  // ---------------------------------------------------------------- what the context stops

  /** The context is done, and goroutine `k` has not started to run its step, nor recorded it, `cleared` to run or not. */
  ghost predicate StoppedAt(s: State, k: nat, cleared: bool) {
    && s.ctxDone && k < |s.gos|
    && s.gos[k].phase in (if cleared then {Cleared, Canceling} else {Waiting, Holding, Cleared, Skipping, Canceling})
  }

  /** What may be recorded then. */
  predicate StopResult(status: StepStatus, cleared: bool) {
    if cleared then status == Canceled else status == Skipped || status == Canceled
  }

  /** A goroutine that is stopped is so until it records that its step was skipped or canceled. */
  lemma StoppedStep(p: Plan, s: State, a: Action, k: nat, cleared: bool)
    requires StoppedAt(s, k, cleared) && Enabled(p, s, a)
    ensures var t := Apply(p, s, a);
            && k < |t.gos| && t.gos[k].step == s.gos[k].step && t.gos[k].phase != Executing
            && (StoppedAt(t, k, cleared) || (a.Finish? && a.k == k && StopResult(a.res.status, cleared)))
  {
    hide Ready, DepsSucceeded;
  }

  /** A goroutine that records a result stays recorded. */
  lemma {:induction false} StoppedRun(p: Plan, run: seq<State>, x: nat, k: nat, cleared: bool)
    requires IsRun(p, run) && StoppedAt(run[0], k, cleared) && x < |run|
    ensures k < |run[x].gos| && run[x].gos[k].step == run[0].gos[k].step
    ensures StoppedAt(run[x], k, cleared) || run[x].gos[k].Recorded()
    decreases x
  {
    hide Enabled, Apply, StoppedAt;
    StoppedBound(run[0], k, cleared);
    if x > 0 {
      StoppedRun(p, run, x - 1, k, cleared);
      assert Next(p, run[x - 1], run[x]);
      var a :| Enabled(p, run[x - 1], a) && run[x] == Apply(p, run[x - 1], a);
      StepGrows(p, run[x - 1], a);
      if StoppedAt(run[x - 1], k, cleared) {
        StoppedStep(p, run[x - 1], a, k, cleared);
        if !StoppedAt(run[x], k, cleared) {
          NowRecorded(p, run[x - 1], k, a.res);
        }
      }
    }
  }

  lemma StoppedBound(s: State, k: nat, cleared: bool)
    requires StoppedAt(s, k, cleared)
    ensures k < |s.gos| && s.gos[k].phase != Executing && (cleared ==> s.gos[k].phase in {Cleared, Canceling})
  {
  }

  lemma NowRecorded(p: Plan, s: State, k: nat, res: StepResult)
    requires Enabled(p, s, Finish(k, res))
    ensures k < |Apply(p, s, Finish(k, res)).gos| && Apply(p, s, Finish(k, res)).gos[k].Recorded()
  {
    hide Ready;
  }

  /**
   A step that has not started when the context is done never runs: what its goroutine records later, if
   anything, is that it was skipped or canceled, and canceled if it had been cleared to run.
   */
  lemma StoppedNeverRuns(p: Plan, run: seq<State>, x: nat, k: nat, n: string, cleared: bool)
    requires IsRun(p, run) && StoppedAt(run[0], k, cleared) && x < |run| && n == run[0].gos[k].step
    ensures k < |run[x].gos| && run[x].gos[k].step == n && run[x].gos[k].phase != Executing
    ensures forall res :: RecordedAt(p, run, x, k, n, res) ==> StopResult(res.status, cleared)
  {
    hide IsRun, Enabled, Apply, StoppedAt;
    StoppedRun(p, run, x, k, cleared);
    if StoppedAt(run[x], k, cleared) {
      StoppedBound(run[x], k, cleared);
    }
    forall res | RecordedAt(p, run, x, k, n, res) ensures StopResult(res.status, cleared) {
      RecordMeans(p, run[x], k, res);
      StoppedBound(run[x], k, cleared);
    }
  }

  // ---------------------------------------------------------------- slots and seeds

  /** At most eight goroutines are past waiting and not done; while fewer are, any that waits may go on. */
  lemma EightAtOnce(p: Plan, s: State)
    requires Inv(p, s)
    ensures |set k: nat | k < |s.gos| && s.gos[k].phase != Waiting && s.gos[k].phase != Done| <= 8
    ensures forall k: nat :: k < |s.gos| && s.gos[k].phase == Waiting ==>
      (Enabled(p, s, Acquire(k)) <==> |set l: nat | l < |s.gos| && s.gos[l].phase != Waiting && s.gos[l].phase != Done| < 8)
  {
    hide NamesKnown, ProgressKnown, LaunchedAfterDeps, SweepInv, ResultsJustified, Covered, Plan.Valid;
    assert (set k: nat | k < |s.gos| && s.gos[k].phase != Waiting && s.gos[k].phase != Done) == s.SlotHolders();
  }

  /** What the board shows at first: carried steps with their results, read as successes when unset, the rest pending. */
  lemma ShownAtFirst(p: Plan, n: string)
    requires n in p.pos
    ensures var s := Init(p);
            && (n in s.results <==> n in p.carry)
            && n in s.progress && s.progress[n].name == n
            && (n !in p.carry ==> s.progress[n] == StepResult(n, Pending, 0, ""))
            && (n in p.carry ==>
                  && s.progress[n] == s.results[n]
                  && s.results[n].status == (if p.carry[n].status == Unset then Success else p.carry[n].status)
                  && s.results[n].exitCode == p.carry[n].exitCode && s.results[n].error == p.carry[n].error)
  {
  }

  /** A step that starts to run shows as running, and one the context stops does not. */
  lemma ShownAtStart(p: Plan, s: State, k: nat)
    requires Enabled(p, s, Proceed(k))
    ensures var t := Apply(p, s, Proceed(k)); var n := s.gos[k].step;
            && (!s.ctxDone ==> t.gos[k].phase == Executing && n in t.progress && t.progress[n] == StepResult(n, Running, 0, ""))
            && (s.ctxDone ==> t.gos[k].phase == Canceling && t.progress == s.progress)
  {
  }

  /** A completion launches its ready children in the order they are listed, which is the order of declaration. */
  lemma {:induction false} ReadySplit(a: seq<string>, b: seq<string>, deps: map<string, seq<string>>, results: map<string, StepResult>)
    requires forall c :: c in a + b ==> c in deps
    ensures (forall c :: c in a ==> c in deps) && forall c :: c in b ==> c in deps
    ensures Ready(a + b, deps, results) == Ready(a, deps, results) + Ready(b, deps, results)
    ensures |b| == 1 ==> Ready(b, deps, results) == if forall d :: d in deps[b[0]] ==> d in results then b else []
    decreases |b|
  {
    assert forall c :: c in a ==> c in a + b;
    assert forall c :: c in b ==> c in a + b;
    hide Ready, DepsSet;
    if b == [] {
      assert a + b == a;
      NoneReady(deps, results);
    } else {
      var last := |b| - 1;
      ReadySplit(a, b[..last], deps, results);
      LastSplit(a, b);
      ReadyLast(a + b, deps, results);
      ReadyLast(b, deps, results);
      if |b| == 1 {
        OneReady(b, deps, results);
      }
      Assoc(Ready(a, deps, results), Ready(b[..last], deps, results), if DepsSet(deps[b[last]], results) then [b[last]] else []);
    }
  }

  lemma NoneReady(deps: map<string, seq<string>>, results: map<string, StepResult>)
    ensures Ready([], deps, results) == []
  {
  }

  lemma LastSplit(a: seq<string>, b: seq<string>)
    requires b != []
    ensures (a + b)[..|a + b| - 1] == a + b[..|b| - 1] && (a + b)[|a + b| - 1] == b[|b| - 1]
  {
  }

  lemma ReadyLast(cs: seq<string>, deps: map<string, seq<string>>, results: map<string, StepResult>)
    requires cs != [] && forall c :: c in cs ==> c in deps
    ensures forall c :: c in cs[..|cs| - 1] ==> c in deps
    ensures Ready(cs, deps, results) ==
      Ready(cs[..|cs| - 1], deps, results) + if DepsSet(deps[cs[|cs| - 1]], results) then [cs[|cs| - 1]] else []
  {
  }

  lemma OneReady(b: seq<string>, deps: map<string, seq<string>>, results: map<string, StepResult>)
    requires |b| == 1 && b[0] in deps
    ensures Ready(b, deps, results) == if forall d :: d in deps[b[0]] ==> d in results then b else []
  {
    assert b[..0] == [] && b == [b[0]];
  }
}
