/**
 What a racing position leads to, or a repeated dependency that can be the last one. The step can be
 launched twice with everything else done: by the last of its dependencies and by the sweep, or twice by
 the dependency it repeats. From there the two launches can end apart.
 */
module RaceStage {
  import opened Steps
  import opened Scheduler
  import opened SchedulerInvariant
  import opened SchedulerConfluence
  import opened SchedulerTermination
  import opened SchedulerOnce
  import opened SchedulerExplained
  import opened SweepRace
  import opened Schedules
  import opened SingleLaunch

  /** The sweep is over, all is done and well but for the goroutines of `d`, none of which has started, and two of which are `k` and `l`. */
  ghost predicate Stage(p: Plan, s: State, d: string, k: nat, l: nat) {
    && Inv(p, s) && s.i == |p.listing| && Settled(HoldStep(d), s) && HeldUp(s, d) && AllGood(s)
    && k < l < |s.gos| && s.gos[k] == Go(d, Waiting) && s.gos[l] == Go(d, Waiting)
  }

  /** At a racing position, with its step held back and the rest quiet, the step's dependencies are all set. */
  lemma RaceDeps(p: Plan, s: State, d: string)
    requires Inv(p, s) && Settled(HoldStep(d), s) && s.i < |p.listing| && d == p.listing[s.i] && RaceAt(p, s.i)
    ensures d in p.deps && DepsSet(p.deps[d], s.results) && s.Launched(d)
  {
    hide HeldBack, DependsOn, Settled, LaunchedAfterDeps, SweepInv, NamesKnown, ProgressKnown, ResultsJustified, CoveredBySweep, SlotsBounded;
    forall e | e in p.deps[d] ensures e in s.results {
      RaceDep(p, s.i, d, e);
      NotBehind(p, e, d);
      SettledCompletes(p, s, d, e);
    }
    RaceFresh(p, s.i);
  }

  lemma RaceFresh(p: Plan, x: nat)
    requires x < |p.listing| && RaceAt(p, x)
    ensures HasFreshDep(p, p.listing[x]) && p.listing[x] !in p.carry
  {
    hide HasFreshDep, HeldBack;
  }

  lemma RaceDep(p: Plan, x: nat, d: string, e: string)
    requires p.Valid() && x < |p.listing| && d == p.listing[x] && RaceAt(p, x) && e in p.deps[d]
    ensures e in p.pos && p.pos[e] < p.pos[d] && !HeldBack(p, x, e)
  {
  }

  /** The stage can be set at every racing position. */
  lemma SetStage(p: Plan, x: nat) returns (run: seq<State>, k: nat, l: nat)
    requires p.Valid() && CarriedSucceeded(p) && x < |p.listing| && RaceAt(p, x)
    ensures run != [] && IsRun(p, run) && run[0] == Init(p) && Stage(p, run[|run| - 1], p.listing[x], k, l)
  {
    hide Inv, RaceAt, HeldUp, Settled, AllGood, IsGuidedRun, IsRun, Plan.Valid, CarriedSucceeded;
    var d := p.listing[x];
    RaceFresh(p, x);
    var first: seq<State>;
    first, k := FirstLaunch(p, x);
    var s := first[|first| - 1];
    l := |s.gos|;
    var tail := SecondLaunch(p, x, s, k);
    JoinGuided(p, HoldStep(d), {}, first, tail);
    run := first + tail[1..];
    AllAlong(p, d, run);
    GuidedIsRun(p, HoldStep(d), {}, run);
    BothWait(run[|run| - 1], d, k, l);
  }

  /** The sweep launches the step again, and goes on. */
  lemma SecondLaunch(p: Plan, x: nat, s: State, k: nat) returns (tail: seq<State>)
    requires p.Valid() && x < |p.listing| && RaceAt(p, x) && Inv(p, s) && s.i == x
    requires var d := p.listing[x]; Settled(HoldStep(d), s) && k < |s.gos| && s.gos[k].step == d
    ensures tail != [] && IsGuidedRun(p, HoldStep(p.listing[x]), {}, tail) && tail[0] == s
    ensures var t := tail[|tail| - 1]; var d := p.listing[x];
            && Inv(p, t) && Settled(HoldStep(d), t) && t.i == |p.listing|
            && k < |s.gos| < |t.gos| && t.gos[k].step == d && t.gos[|s.gos|].step == d
  {
    hide Inv, RaceAt, Settled, IsGuidedRun, IsSweepRun, Plan.Valid;
    var d := p.listing[x];
    RaceDeps(p, s, d);
    RaceFresh(p, x);
    var again := SweepLaunchRun(p, s);
    SweepIsGuided(p, HoldStep(d), {}, again);
    var rest := SweepOn(p, again[|again| - 1], d);
    KeepBoth(p, HoldStep(d), rest, s, d, k);
    JoinGuided(p, HoldStep(d), {}, again, rest);
    tail := again + rest[1..];
  }

  /** Up to the racing position: its step is launched by the last of its dependencies, and held back. */
  lemma FirstLaunch(p: Plan, x: nat) returns (run: seq<State>, k: nat)
    requires p.Valid() && x < |p.listing| && RaceAt(p, x)
    ensures run != [] && IsGuidedRun(p, HoldStep(p.listing[x]), {}, run) && run[0] == Init(p)
    ensures var s := run[|run| - 1]; var d := p.listing[x];
            Inv(p, s) && Settled(HoldStep(d), s) && s.i == x && s.j == 0 && k < |s.gos| && s.gos[k] == Go(d, Waiting)
  {
    hide Inv, RaceAt, HeldUp, Settled, IsGuidedRun, IsSweepRun, Plan.Valid, State.Launched;
    var d := p.listing[x];
    InitInv(p);
    var sweep := SweepTo(p, Init(p), x);
    SweepIsGuided(p, HoldStep(d), {}, sweep);
    var settle := Settle(p, HoldStep(d), {}, sweep[|sweep| - 1]);
    JoinGuided(p, HoldStep(d), {}, sweep, settle);
    run := sweep + settle[1..];
    var s := run[|run| - 1];
    AllAlongHeld(p, x, run);
    RaceDeps(p, s, d);
    HeldLaunched(p, s, d);
    k :| k < |s.gos| && s.gos[k] == Go(d, Waiting);
  }

  lemma AllAlongHeld(p: Plan, x: nat, run: seq<State>)
    requires p.Valid() && x < |p.listing| && RaceAt(p, x)
    requires run != [] && IsGuidedRun(p, HoldStep(p.listing[x]), {}, run) && run[0] == Init(p)
    ensures HeldUp(run[|run| - 1], p.listing[x])
  {
    hide HeldUp, NextGuided, RaceAt;
    RaceFresh(p, x);
    InitHeld(p, p.listing[x]);
    HeldAlong(p, p.listing[x], {}, run, |run| - 1);
  }

  /** The sweep goes on to its end, and everything else settles. */
  lemma SweepOn(p: Plan, u: State, d: string) returns (run: seq<State>)
    requires Inv(p, u) && u.i <= |p.listing|
    ensures run != [] && IsGuidedRun(p, HoldStep(d), {}, run) && run[0] == u
    ensures var t := run[|run| - 1]; Inv(p, t) && Settled(HoldStep(d), t) && t.i == |p.listing|
  {
    hide Inv, Settled, IsGuidedRun, IsSweepRun;
    AtTheEnd(p, u);
    var sweep := SweepTo(p, u, |p.listing|);
    SweepIsGuided(p, HoldStep(d), {}, sweep);
    var settle := Settle(p, HoldStep(d), {}, sweep[|sweep| - 1]);
    JoinGuided(p, HoldStep(d), {}, sweep, settle);
    run := sweep + settle[1..];
  }

  lemma AtTheEnd(p: Plan, s: State)
    requires Inv(p, s)
    ensures s.i == |p.listing| ==> s.j == 0
  {
  }

  lemma KeepBoth(p: Plan, h: Hold, rest: seq<State>, s: State, d: string, k: nat)
    requires rest != [] && IsGuidedRun(p, h, {}, rest) && rest[0].gos == s.gos + [Go(d, Waiting)] && k < |s.gos| && s.gos[k].step == d
    ensures var t := rest[|rest| - 1]; k < |s.gos| < |t.gos| && t.gos[k].step == d && t.gos[|s.gos|].step == d
  {
    hide NextGuided;
    GuidedIsRun(p, h, {}, rest);
    StepsAlong(p, rest, |rest| - 1);
    assert rest[0].gos[k].step == d && rest[0].gos[|s.gos|].step == d;
  }

  lemma AllAlong(p: Plan, d: string, run: seq<State>)
    requires p.Valid() && CarriedSucceeded(p) && d !in p.carry
    requires run != [] && IsGuidedRun(p, HoldStep(d), {}, run) && run[0] == Init(p)
    ensures HeldUp(run[|run| - 1], d) && AllGood(run[|run| - 1])
  {
    hide HeldUp, AllGood, NextGuided, Inv;
    InitInv(p);
    InitHeld(p, d);
    InitGood(p);
    HeldAlong(p, d, {}, run, |run| - 1);
    GoodAlong(p, HoldStep(d), run, |run| - 1);
  }

  lemma BothWait(s: State, d: string, k: nat, l: nat)
    requires HeldUp(s, d) && k < l < |s.gos| && s.gos[k].step == d && s.gos[l].step == d
    ensures s.gos[k] == Go(d, Waiting) && s.gos[l] == Go(d, Waiting)
  {
  }

  // ---------------------------------------------------------------- a repeated dependency

  /** With the repeated dependency held back and the rest done, the step that repeats it has not been launched. */
  lemma NotLaunchedYet(p: Plan, s: State, n: string, d: string)
    requires Inv(p, s) && d !in s.results && n in p.deps && d in p.deps[n] && n !in p.carry
    ensures HeldUp(s, n)
  {
    UnsetDep(p, s, n, d);
    hide Plan.Valid, NamesKnown, ProgressKnown, SweepInv, ResultsJustified, Covered, SlotsBounded;
    assert !DepsSet(p.deps[n], s.results);
  }

  /** The sweep is over, and all is done but for the dependency, held back. */
  lemma HeldDependency(p: Plan, n: string, d: string) returns (run: seq<State>)
    requires p.Valid() && CarriedSucceeded(p) && Repeats(p, n, d)
    ensures run != [] && IsRun(p, run) && run[0] == Init(p)
    ensures var s := run[|run| - 1];
            && Inv(p, s) && s.i == |p.listing| && AllGood(s) && HeldUp(s, n) && d !in s.results
            && n in p.pos && d in p.pos && n !in p.carry && d in p.deps[n] && LastOf(p, s, n, d)
  {
    hide Inv, HeldUp, Settled, AllGood, IsGuidedRun, IsRun, Plan.Valid, CarriedSucceeded, LastOf, Delayed;
    RepeatedDep(p, n, d);
    InitInv(p);
    run := SweepOn(p, Init(p), d);
    AllAlong(p, d, run);
    GuidedIsRun(p, HoldStep(d), {}, run);
    var s := run[|run| - 1];
    HeldToTheEnd(p, s, n, d);
    NotYet(s, d);
    NotLaunchedYet(p, s, n, d);
  }

  lemma RepeatedDep(p: Plan, n: string, d: string)
    requires p.Valid() && Repeats(p, n, d)
    ensures n in p.pos && d in p.pos && n in p.deps && d in p.deps[n] && p.pos[d] < p.pos[n]
  {
    hide Delayed;
    assert n in multiset(p.children[d]);
    assert n in p.children[d];
  }

  /** Then the dependency completes, and puts its child, held back, on the list more than once. */
  lemma SetRepeatStage(p: Plan, n: string, d: string) returns (run: seq<State>, k: nat, l: nat)
    requires p.Valid() && CarriedSucceeded(p) && Repeats(p, n, d)
    ensures run != [] && IsRun(p, run) && run[0] == Init(p) && Stage(p, run[|run| - 1], n, k, l)
  {
    hide Inv, HeldUp, Settled, AllGood, IsGuidedRun, IsRun, Plan.Valid, CarriedSucceeded, LastOf, Repeats, Total, TwiceOnce;
    var first := HeldDependency(p, n, d);
    var s := first[|first| - 1];
    var rest := Settle(p, HoldStep(n), {}, s);
    var t := rest[|rest| - 1];
    HeldAlong(p, n, {}, rest, |rest| - 1);
    GoodAlong(p, HoldStep(n), rest, |rest| - 1);
    GuidedIsRun(p, HoldStep(n), {}, rest);
    Join(p, first, rest);
    run := first + rest[1..];
    RepeatedDep(p, n, d);
    DependencyDone(p, t, n, d);
    NotTwiceYet(s, n, d);
    RunTwice(p, rest, |rest| - 1, n, d);
    k, l := TwoWaiting(t, n, d);
  }

  lemma NotTwiceYet(s: State, n: string, d: string)
    requires d !in s.results
    ensures TwiceOnce(s, n, d)
  {
  }

  lemma DependencyDone(p: Plan, s: State, n: string, d: string)
    requires Inv(p, s) && Settled(HoldStep(n), s) && s.i == |p.listing|
    requires n in p.pos && d in p.pos && p.pos[d] < p.pos[n]
    ensures d in s.results
  {
    hide HeldBack, DependsOn, Settled, LaunchedAfterDeps, SweepInv, NamesKnown, ProgressKnown, ResultsJustified, Covered, SlotsBounded;
    NotBehind(p, d, n);
    NothingHeldBack(p, d);
    SettledCompletes(p, s, n, d);
  }

  lemma TwoWaiting(s: State, n: string, d: string) returns (k: nat, l: nat)
    requires Settled(HoldStep(n), s) && HeldUp(s, n) && d in s.results && TwiceOnce(s, n, d)
    ensures k < l < |s.gos| && s.gos[k] == Go(n, Waiting) && s.gos[l] == Go(n, Waiting)
  {
    hide Total, HeldUp;
    forall x | 0 <= x < |s.gos| ensures s.gos[x].Pending() == [] {
      assert s.gos[x].phase == Done || Stuck(HoldStep(n), s, x);
    }
    k, l := TwoIndexes(s.gos, n);
    BothWait(s, n, k, l);
  }

  /** The stage can be set for every step that can be launched twice. */
  lemma SetAnyStage(p: Plan, n: string) returns (run: seq<State>, k: nat, l: nat)
    requires p.Valid() && CarriedSucceeded(p) && Doubles(p, n)
    ensures run != [] && IsRun(p, run) && run[0] == Init(p) && Stage(p, run[|run| - 1], n, k, l)
  {
    hide RaceAt, Repeats, Stage, IsRun, CarriedSucceeded, Plan.Valid;
    if d :| Repeats(p, n, d) {
      run, k, l := SetRepeatStage(p, n, d);
    } else {
      var x :| 0 <= x < |p.listing| && p.listing[x] == n && RaceAt(p, x);
      run, k, l := SetStage(p, x);
    }
  }

  // ---------------------------------------------------------------- the first launch runs

  lemma NoSlotsHeld(p: Plan, s: State, d: string, k: nat, l: nat)
    requires Stage(p, s, d, k, l)
    ensures s.SlotHolders() == {}
  {
    hide Inv, AllGood;
    forall x: nat | x < |s.gos| ensures !s.gos[x].HoldsSlot() {
      assert s.gos[x].phase == Done || Stuck(HoldStep(d), s, x);
    }
  }

  lemma StageDeps(p: Plan, s: State, d: string, k: nat, l: nat)
    requires Stage(p, s, d, k, l)
    ensures d in p.pos && d in p.deps && d in p.children && DepsSet(p.deps[d], s.results) && DepsSucceeded(p.deps[d], s.results)
    ensures forall c :: c in p.children[d] ==> c in p.deps
  {
    hide Settled, HeldUp, SweepInv, ResultsJustified, Covered, SlotsBounded, ProgressKnown, Plan.Sorted;
    assert s.gos[k].step == d;
    hide Plan.Linked;
    GoodDeps(p.deps[d], s);
  }

  /** The first launch of the step is executing. */
  lemma FirstStarts(p: Plan, s: State, d: string, k: nat, l: nat) returns (run: seq<State>)
    requires Stage(p, s, d, k, l)
    ensures run != [] && IsRun(p, run) && run[0] == s && Moved(s, run[|run| - 1], k, Executing)
  {
    NoSlotsHeld(p, s, d, k, l);
    StageDeps(p, s, d, k, l);
    hide Inv, Settled, HeldUp;
    run := StartOne(p, s, k);
  }

  /** The state after the first launch of the step has recorded `res`. */
  ghost predicate FirstDone(p: Plan, s: State, t: State, k: nat, res: StepResult)
    requires k < |s.gos| && s.gos[k].step in p.children && forall c :: c in p.children[s.gos[k].step] ==> c in p.deps
  {
    var n := s.gos[k].step;
    && t.results == s.results[n := res]
    && t.gos == s.gos[k := Go(n, Launching(Ready(p.children[n], p.deps, t.results)))]
    && t.failed == (s.failed || res.status == Failed) && t.canceled == s.canceled && t.ctxDone == s.ctxDone
    && t.i == s.i && t.j == s.j
  }

  lemma FirstFinishes(p: Plan, s: State, d: string, k: nat, l: nat, bad: set<string>) returns (run: seq<State>)
    requires Stage(p, s, d, k, l)
    ensures d in p.children && (forall c :: c in p.children[d] ==> c in p.deps)
    ensures run != [] && IsRun(p, run) && run[0] == s && Inv(p, run[|run| - 1]) && FirstDone(p, s, run[|run| - 1], k, Chosen(d, bad))
  {
    hide Inv, Settled, HeldUp, AllGood, IsRun, DepsSucceeded, DepsSet, FirstDone;
    StageDeps(p, s, d, k, l);
    var start := FirstStarts(p, s, d, k, l);
    var u := start[|start| - 1];
    var end := RecordOne(p, s, u, d, k, bad);
    Join(p, start, end);
    run := start + end[1..];
    InvAlong(p, run, |run| - 1);
  }

  lemma RecordOne(p: Plan, s: State, u: State, d: string, k: nat, bad: set<string>) returns (run: seq<State>)
    requires k < |s.gos| && s.gos[k].step == d && Moved(s, u, k, Executing)
    requires d in p.children && forall c :: c in p.children[d] ==> c in p.deps
    ensures run != [] && IsRun(p, run) && run[0] == u && FirstDone(p, s, run[|run| - 1], k, Chosen(d, bad))
  {
    hide Ready;
    var a := Finish(k, Chosen(d, bad));
    assert Enabled(p, u, a);
    var t := Apply(p, u, a);
    FinishForm(p, u, k, Chosen(d, bad));
    OneStep(p, u, a);
    run := [u, t];
    hide Apply, Enabled;
    assert u.gos[k := t.gos[k]] == s.gos[k := t.gos[k]];
  }

  lemma FinishForm(p: Plan, u: State, k: nat, res: StepResult)
    requires Enabled(p, u, Finish(k, res)) && res.status != Canceled
    ensures var t := Apply(p, u, Finish(k, res)); var n := u.gos[k].step;
            && t.results == u.results[n := res]
            && t.gos[k] == Go(n, Launching(Ready(p.children[n], p.deps, t.results)))
            && t.gos == u.gos[k := t.gos[k]]
            && t.failed == (u.failed || res.status == Failed) && t.canceled == u.canceled && t.ctxDone == u.ctxDone
            && t.i == u.i && t.j == u.j
  {
    hide Ready;
  }
}
