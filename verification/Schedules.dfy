/**
 Building runs: schedules in which chosen goroutines are held back while all others run until they are
 done, with the outcomes of steps chosen as needed.
 */
module Schedules {
  import opened Steps
  import opened Scheduler
  import opened SchedulerInvariant
  import opened SchedulerConfluence
  import opened SchedulerTermination
  import opened SchedulerOnce
  import opened SweepRace

  /** What a schedule holds back: nothing, the goroutines of one step before they start, or one goroutine. */
  datatype Hold = HoldNone | HoldStep(step: string) | HoldOne(k: nat)

  ghost predicate Stuck(h: Hold, s: State, k: nat)
    requires k < |s.gos|
  {
    match h
    case HoldNone => false
    case HoldStep(d) => s.gos[k].step == d && s.gos[k].phase == Waiting
    case HoldOne(m) => k == m
  }

  /** Every goroutine is done or held back. */
  ghost predicate Settled(h: Hold, s: State) {
    forall k: nat :: k < |s.gos| ==> s.gos[k].phase == Done || Stuck(h, s, k)
  }

  /** Steps run successfully, except for the `bad` ones. */
  function Chosen(n: string, bad: set<string>): StepResult {
    StepResult(n, if n in bad then Failed else Success, 0, "")
  }

  /** A transition of the sweep, or of a goroutine that is not held back, with the chosen outcome. */
  ghost predicate Guided(p: Plan, h: Hold, bad: set<string>, s: State, a: Action) {
    && Enabled(p, s, a) && !a.CancelContext?
    && (!a.Sweep? ==> a.k < |s.gos| && !Stuck(h, s, a.k))
    && (a.Finish? && a.k < |s.gos| && s.gos[a.k].phase == Executing ==> a.res == Chosen(s.gos[a.k].step, bad))
  }

  ghost predicate NextGuided(p: Plan, h: Hold, bad: set<string>, s: State, t: State) {
    exists a :: Enabled(p, s, a) && Guided(p, h, bad, s, a) && t == Apply(p, s, a)
  }

  ghost predicate IsGuidedRun(p: Plan, h: Hold, bad: set<string>, run: seq<State>) {
    run != [] && forall x :: 0 <= x < |run| - 1 ==> NextGuided(p, h, bad, run[x], run[x + 1])
  }

  /** A goroutine that holds a slot can always move. */
  lemma HolderMove(p: Plan, bad: set<string>, s: State, k: nat) returns (a: Action)
    requires p.Keyed() && p.Linked() && NamesKnown(p, s) && k < |s.gos| && s.gos[k].HoldsSlot()
    ensures Enabled(p, s, a) && !a.Sweep? && !a.CancelContext? && a.k == k
    ensures a.Finish? && s.gos[k].phase == Executing ==> a.res == Chosen(s.gos[k].step, bad)
  {
    var n := s.gos[k].step;
    match s.gos[k].phase
    case Holding => a := Decide(k);
    case Cleared => a := Proceed(k);
    case Skipping => a := Finish(k, SkippedResult(n));
    case Canceling => a := Finish(k, CanceledResult(n));
    case Executing => a := Finish(k, Chosen(n, bad));
    case Launching(ready) => a := if ready == [] then Release(k) else LaunchChild(k);
  }

  lemma WaiterMove(p: Plan, h: Hold, s: State) returns (a: Action)
    requires !Settled(h, s) && forall k: nat :: k < |s.gos| && s.gos[k].HoldsSlot() ==> Stuck(h, s, k)
    ensures Enabled(p, s, a) && a.Acquire? && a.k < |s.gos| && s.gos[a.k].phase == Waiting && !Stuck(h, s, a.k)
  {
    var k: nat :| k < |s.gos| && s.gos[k].phase != Done && !Stuck(h, s, k);
    FewSlots(h, s);
    a := Acquire(k);
  }

  lemma GuidedMove(p: Plan, h: Hold, bad: set<string>, s: State) returns (a: Action)
    requires p.Keyed() && p.Linked() && NamesKnown(p, s) && !Settled(h, s)
    ensures Guided(p, h, bad, s, a) && !a.Sweep?
  {
    hide Enabled, Plan.Keyed, Plan.Linked, NamesKnown, Settled, Stuck, Goroutine.HoldsSlot;
    if k: nat :| k < |s.gos| && s.gos[k].HoldsSlot() && !Stuck(h, s, k) {
      a := HolderMove(p, bad, s, k);
    } else {
      a := WaiterMove(p, h, s);
    }
  }

  lemma FewSlots(h: Hold, s: State)
    requires forall k: nat :: k < |s.gos| && s.gos[k].HoldsSlot() ==> Stuck(h, s, k)
    ensures |s.SlotHolders()| < MAX_PARALLEL_STEPS
  {
    if h.HoldOne? {
      assert s.SlotHolders() <= {h.k};
      SubsetSize(s.SlotHolders(), {h.k});
    } else {
      assert s.SlotHolders() == {};
    }
  }

  lemma ExtendGuided(p: Plan, h: Hold, bad: set<string>, s: State, a: Action, rest: seq<State>)
    requires Guided(p, h, bad, s, a) && IsGuidedRun(p, h, bad, rest) && rest[0] == Apply(p, s, a)
    ensures IsGuidedRun(p, h, bad, [s] + rest)
  {
    hide Apply, Enabled;
    var run := [s] + rest;
    assert NextGuided(p, h, bad, s, rest[0]);
    forall x | 0 <= x < |run| - 1 ensures NextGuided(p, h, bad, run[x], run[x + 1]) {
      if x > 0 {
        assert run[x] == rest[x - 1] && run[x + 1] == rest[x];
      }
    }
  }

  /** Whatever is held back, everything else can run until it is done, with the sweep held where it is. */
  lemma {:induction false} Settle(p: Plan, h: Hold, bad: set<string>, s: State) returns (run: seq<State>)
    requires Inv(p, s)
    ensures run != [] && IsGuidedRun(p, h, bad, run) && run[0] == s
    ensures var t := run[|run| - 1]; Inv(p, t) && Settled(h, t) && t.i == s.i && t.j == s.j
    decreases Measure(p, s)
  {
    hide Inv, Measure, Apply, Guided, Settled;
    if Settled(h, s) {
      run := [s];
    } else {
      InvNames(p, s);
      var a := GuidedMove(p, h, bad, s);
      GuidedKeeps(p, h, bad, s, a);
      StepInv(p, s, a);
      StepWeighs(p, s, a);
      Nonnegative(p, s);
      var rest := Settle(p, h, bad, Apply(p, s, a));
      ExtendGuided(p, h, bad, s, a, rest);
      run := [s] + rest;
    }
  }

  lemma InvNames(p: Plan, s: State)
    requires Inv(p, s)
    ensures p.Keyed() && p.Linked() && NamesKnown(p, s)
  {
    hide NamesKnown, ProgressKnown, LaunchedAfterDeps, SweepInv, ResultsJustified, Covered, SlotsBounded, Plan.Sorted;
  }

  lemma GuidedKeeps(p: Plan, h: Hold, bad: set<string>, s: State, a: Action)
    requires Guided(p, h, bad, s, a)
    ensures Enabled(p, s, a) && !a.CancelContext?
    ensures !a.Sweep? ==> Apply(p, s, a).i == s.i && Apply(p, s, a).j == s.j
    ensures Apply(p, s, a).ctxDone == s.ctxDone
  {
    hide Ready, DepsSucceeded;
  }

  lemma GuidedIsRun(p: Plan, h: Hold, bad: set<string>, run: seq<State>)
    requires IsGuidedRun(p, h, bad, run)
    ensures IsRun(p, run)
  {
    hide Apply, Enabled;
    forall x | 0 <= x < |run| - 1 ensures Next(p, run[x], run[x + 1]) {
      assert NextGuided(p, h, bad, run[x], run[x + 1]);
    }
  }

  lemma SweepIsGuided(p: Plan, h: Hold, bad: set<string>, run: seq<State>)
    requires IsSweepRun(p, run)
    ensures IsGuidedRun(p, h, bad, run)
  {
    hide Apply, Enabled;
    forall x | 0 <= x < |run| - 1 ensures NextGuided(p, h, bad, run[x], run[x + 1]) {
      assert Guided(p, h, bad, run[x], Sweep);
    }
  }

  lemma JoinGuided(p: Plan, h: Hold, bad: set<string>, first: seq<State>, second: seq<State>)
    requires IsGuidedRun(p, h, bad, first) && IsGuidedRun(p, h, bad, second)
    requires first != [] && second != [] && first[|first| - 1] == second[0]
    ensures var run := first + second[1..];
            run != [] && IsGuidedRun(p, h, bad, run) && run[0] == first[0] && run[|run| - 1] == second[|second| - 1]
  {
    hide NextGuided;
    var run := first + second[1..];
    forall x | 0 <= x < |run| - 1 ensures NextGuided(p, h, bad, run[x], run[x + 1]) {
      if x < |first| - 1 {
        assert run[x] == first[x] && run[x + 1] == first[x + 1];
      } else {
        var y := x - (|first| - 1);
        assert run[x] == second[y] && run[x + 1] == second[y + 1];
      }
    }
  }

  /** With nothing held back and the sweep over, a settled state is one to return from. */
  lemma FreeIsFinal(p: Plan, s: State)
    requires Settled(HoldNone, s) && s.i == |p.listing|
    ensures s.Final(p)
  {
    forall k: nat | k < |s.gos| ensures s.gos[k].phase == Done {
      assert !Stuck(HoldNone, s, k);
    }
  }

  lemma {:induction false} InvAlong(p: Plan, run: seq<State>, x: nat)
    requires IsRun(p, run) && Inv(p, run[0]) && x < |run|
    ensures Inv(p, run[x])
  {
    hide Inv;
    if x > 0 {
      InvAlong(p, run, x - 1);
      assert Next(p, run[x - 1], run[x]);
      var a :| Enabled(p, run[x - 1], a) && run[x] == Apply(p, run[x - 1], a);
      StepInv(p, run[x - 1], a);
    }
  }

  // ---------------------------------------------------------------- everything succeeds

  /** No result but success, and nothing on the way to another one. */
  ghost predicate AllGood(s: State) {
    && !s.ctxDone && !s.canceled
    && (forall n :: n in s.results ==> s.results[n].status == Success)
    && (forall k :: 0 <= k < |s.gos| ==> s.gos[k].phase != Skipping && s.gos[k].phase != Canceling)
  }

  lemma GoodDeps(deps: seq<string>, s: State)
    requires AllGood(s) && DepsSet(deps, s.results)
    ensures DepsSucceeded(deps, s.results)
  {
  }

  lemma GoodStep(p: Plan, h: Hold, s: State, a: Action)
    requires LaunchedAfterDeps(p, s) && AllGood(s) && Guided(p, h, {}, s, a)
    ensures AllGood(Apply(p, s, a))
  {
    hide Ready, DepsSucceeded, DepsSet;
    if a.Decide? {
      GoodDeps(p.deps[s.gos[a.k].step], s);
    }
  }

  lemma {:induction false} GoodAlong(p: Plan, h: Hold, run: seq<State>, x: nat)
    requires IsGuidedRun(p, h, {}, run) && Inv(p, run[0]) && AllGood(run[0]) && x < |run|
    ensures AllGood(run[x])
  {
    hide AllGood, Guided, Apply, Enabled, Inv, LaunchedAfterDeps;
    if x > 0 {
      GoodAlong(p, h, run, x - 1);
      InvAt(p, h, {}, run, x - 1);
      assert NextGuided(p, h, {}, run[x - 1], run[x]);
      var a :| Enabled(p, run[x - 1], a) && Guided(p, h, {}, run[x - 1], a) && run[x] == Apply(p, run[x - 1], a);
      GoodStep(p, h, run[x - 1], a);
    }
  }

  lemma InvAt(p: Plan, h: Hold, bad: set<string>, run: seq<State>, x: nat)
    requires IsGuidedRun(p, h, bad, run) && Inv(p, run[0]) && x < |run|
    ensures Inv(p, run[x]) && LaunchedAfterDeps(p, run[x])
  {
    hide IsGuidedRun, LaunchedAfterDeps;
    GuidedIsRun(p, h, bad, run);
    InvAlong(p, run, x);
  }

  lemma InitGood(p: Plan)
    requires p.Valid() && forall n :: n in p.pos && n in p.carry ==> p.Seed(n).status == Success
    ensures AllGood(Init(p))
  {
  }

  // ---------------------------------------------------------------- a step held back

  /** `d` has no result, and none of its goroutines has started. */
  ghost predicate HeldUp(s: State, d: string) {
    d !in s.results && forall k :: 0 <= k < |s.gos| && s.gos[k].step == d ==> s.gos[k].phase == Waiting
  }

  lemma HeldStepStep(p: Plan, d: string, bad: set<string>, s: State, a: Action)
    requires HeldUp(s, d) && Guided(p, HoldStep(d), bad, s, a)
    ensures HeldUp(Apply(p, s, a), d)
  {
    hide Ready, DepsSucceeded, DepsSet;
  }

  lemma {:induction false} HeldAlong(p: Plan, d: string, bad: set<string>, run: seq<State>, x: nat)
    requires IsGuidedRun(p, HoldStep(d), bad, run) && HeldUp(run[0], d) && x < |run|
    ensures HeldUp(run[x], d)
  {
    hide HeldUp, Guided, Apply;
    if x > 0 {
      HeldAlong(p, d, bad, run, x - 1);
      assert NextGuided(p, HoldStep(d), bad, run[x - 1], run[x]);
      var a :| Enabled(p, run[x - 1], a) && Guided(p, HoldStep(d), bad, run[x - 1], a) && run[x] == Apply(p, run[x - 1], a);
      HeldStepStep(p, d, bad, run[x - 1], a);
    }
  }

  lemma InitHeld(p: Plan, d: string)
    requires d !in p.carry
    ensures HeldUp(Init(p), d)
  {
  }

  /** Goroutines keep their steps along a run. */
  lemma {:induction false} StepsAlong(p: Plan, run: seq<State>, x: nat)
    requires IsRun(p, run) && x < |run|
    ensures |run[0].gos| <= |run[x].gos| && forall k :: 0 <= k < |run[0].gos| ==> run[x].gos[k].step == run[0].gos[k].step
  {
    if x > 0 {
      StepsAlong(p, run, x - 1);
      assert Next(p, run[x - 1], run[x]);
      var a :| Enabled(p, run[x - 1], a) && run[x] == Apply(p, run[x - 1], a);
      hide Apply, Enabled;
      StepGrows(p, run[x - 1], a);
    }
  }

  lemma HeldLaunched(p: Plan, s: State, d: string)
    requires Settled(HoldStep(d), s) && HeldUp(s, d) && s.Launched(d)
    ensures exists k: nat :: k < |s.gos| && s.gos[k] == Go(d, Waiting)
  {
    var k :| 0 <= k < |s.gos| && (s.gos[k].step == d || d in s.gos[k].Pending());
    var k': nat := k;
    assert s.gos[k'].phase == Done || Stuck(HoldStep(d), s, k');
    assert s.gos[k'] == Go(d, Waiting);
  }

  /** With `d` held back, everything the sweep has reached that does not wait for `d` completes. */
  lemma {:induction false} SettledCompletes(p: Plan, s: State, d: string, n: string)
    requires p.Valid() && NamesKnown(p, s) && ResultsJustified(p, s) && Covered(p, s) && Settled(HoldStep(d), s)
    requires s.i <= |p.listing| && n in p.pos && !HeldBack(p, s.i, n) && n != d && !DependsOn(p, n, d)
    ensures n in s.results
    decreases p.pos[n]
  {
    if n !in p.carry {
      if HasFreshDep(p, n) {
        forall m | m in p.deps[n] ensures m in s.results {
          SettledCompletes(p, s, d, m);
        }
        assert s.Launched(n);
      } else {
        assert Swept(p, s.i, n);
        var y :| 0 <= y < s.i && y < |p.listing| && p.listing[y] == n;
        assert s.Launched(p.listing[y]);
      }
      SettledLaunched(p, s, d, n);
    }
  }

  lemma SettledLaunched(p: Plan, s: State, d: string, n: string)
    requires ResultsJustified(p, s) && Settled(HoldStep(d), s) && s.Launched(n) && n != d
    ensures n in s.results
  {
    var k :| 0 <= k < |s.gos| && (s.gos[k].step == n || n in s.gos[k].Pending());
    var k': nat := k;
    assert s.gos[k'].phase == Done || Stuck(HoldStep(d), s, k');
    assert s.gos[k].Recorded();
  }

  /** The sweep, once over, holds nothing back. */
  lemma {:induction false} NothingHeldBack(p: Plan, n: string)
    requires p.Valid() && n in p.pos
    ensures !HeldBack(p, |p.listing|, n)
    decreases p.pos[n]
  {
    if HasFreshDep(p, n) {
      forall d | d in p.deps[n] ensures !HeldBack(p, |p.listing|, d) {
        NothingHeldBack(p, d);
      }
    } else {
      assert n in p.listing;
      var x :| 0 <= x < |p.listing| && p.listing[x] == n;
      assert Swept(p, |p.listing|, n);
    }
  }

  /** What waits for `d` comes at or after some child of `d`. */
  lemma {:induction false} ChildBefore(p: Plan, e: string, d: string) returns (c: string)
    requires p.Valid() && d in p.pos && e in p.pos && DependsOn(p, e, d)
    ensures c in p.children[d] && c in p.pos && p.pos[c] <= p.pos[e]
    decreases p.pos[e]
  {
    hide Plan.Sorted;
    var m := WaitsFor(p, e, d);
    if m == d {
      c := e;
    } else {
      c := ChildBefore(p, m, d);
    }
  }

  lemma ChildLater(p: Plan, d: string, c: string)
    requires p.Valid() && d in p.pos && c in p.children[d]
    ensures c in p.pos && p.pos[d] < p.pos[c] && d in p.deps[c]
  {
  }

  lemma NotBehind(p: Plan, e: string, d: string)
    requires p.Valid() && d in p.pos && e in p.pos && p.pos[e] <= p.pos[d]
    ensures !DependsOn(p, e, d)
  {
    if DependsOn(p, e, d) {
      var c := ChildBefore(p, e, d);
      ChildLater(p, d, c);
    }
  }

  // ---------------------------------------------------------------- one goroutine at a time

  /** A run of one transition. */
  lemma OneStep(p: Plan, s: State, a: Action)
    requires Enabled(p, s, a)
    ensures IsRun(p, [s, Apply(p, s, a)])
  {
    hide Enabled, Apply;
    var run := [s, Apply(p, s, a)];
    assert Next(p, run[0], run[1]);
  }

  /** A run ends with the shared state it started with, but for the progress, and goroutine `k` in a new phase. */
  ghost predicate Moved(s: State, t: State, k: nat, phase: Phase)
    requires k < |s.gos|
  {
    t == s.At(k, phase).(progress := t.progress)
  }

  /** A waiting goroutine whose dependencies all succeeded can start its step, when a slot is free. */
  lemma StartOne(p: Plan, s: State, k: nat) returns (run: seq<State>)
    requires k < |s.gos| && s.gos[k].phase == Waiting && s.gos[k].step in p.deps && !s.ctxDone
    requires DepsSucceeded(p.deps[s.gos[k].step], s.results) && |s.SlotHolders()| < MAX_PARALLEL_STEPS
    ensures run != [] && IsRun(p, run) && run[0] == s && Moved(s, run[|run| - 1], k, Executing)
  {
    hide DepsSucceeded;
    var s1 := Apply(p, s, Acquire(k));
    var s2 := Apply(p, s1, Decide(k));
    var s3 := Apply(p, s2, Proceed(k));
    assert s1 == s.At(k, Holding);
    assert s2 == s.At(k, Cleared);
    OneStep(p, s, Acquire(k));
    OneStep(p, s1, Decide(k));
    OneStep(p, s2, Proceed(k));
    hide Enabled, Apply;
    Join(p, [s, s1], [s1, s2]);
    assert [s, s1] + [s1, s2][1..] == [s, s1, s2];
    Join(p, [s, s1, s2], [s2, s3]);
    run := [s, s1, s2] + [s2, s3][1..];
  }

  /** The goroutines of steps just launched. */
  function Fresh(steps: seq<string>): seq<Goroutine> {
    seq(|steps|, i requires 0 <= i < |steps| => Go(steps[i], Waiting))
  }

  /** A goroutine can launch all its pending children in a row. */
  lemma {:induction false} LaunchAll(p: Plan, s: State, k: nat, ready: seq<string>) returns (run: seq<State>)
    requires k < |s.gos| && s.gos[k].phase == Launching(ready)
    ensures run != [] && IsRun(p, run) && run[0] == s
    ensures run[|run| - 1] == s.(gos := s.gos[k := Go(s.gos[k].step, Launching([]))] + Fresh(ready))
    decreases |ready|
  {
    if ready == [] {
      run := [s];
      assert s.gos[k := Go(s.gos[k].step, Launching([]))] + Fresh(ready) == s.gos;
    } else {
      var t := Apply(p, s, LaunchChild(k));
      var rest := LaunchAll(p, t, k, ready[1..]);
      hide Enabled, Apply;
      LaunchedOne(p, s, k, ready, t);
      OneStep(p, s, LaunchChild(k));
      Join(p, [s, t], rest);
      run := [s, t] + rest[1..];
    }
  }

  lemma LaunchedOne(p: Plan, s: State, k: nat, ready: seq<string>, t: State)
    requires k < |s.gos| && s.gos[k].phase == Launching(ready) && ready != [] && t == Apply(p, s, LaunchChild(k))
    ensures Enabled(p, s, LaunchChild(k)) && k < |t.gos| && t.gos[k] == Go(s.gos[k].step, Launching(ready[1..]))
    ensures t.(gos := t.gos[k := Go(t.gos[k].step, Launching([]))] + Fresh(ready[1..]))
         == s.(gos := s.gos[k := Go(s.gos[k].step, Launching([]))] + Fresh(ready))
  {
    var step := s.gos[k].step;
    assert t.gos == s.gos[k := Go(step, Launching(ready[1..]))] + [Go(ready[0], Waiting)];
    assert t.gos[k := Go(step, Launching([]))] + Fresh(ready[1..])
        == s.gos[k := Go(step, Launching([]))] + Fresh(ready);
  }
}
