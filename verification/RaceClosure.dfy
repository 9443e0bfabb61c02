/**
 When the successes of an attempt are closed under dependencies, so that they can seed a retry. Where a
 step that can be launched twice has a child, the child can succeed on the strength of the first launch
 while the second one fails. Where such steps are leaves, and whenever each step has one fixed outcome,
 the successes are always closed.
 */
module RaceClosure {
  import opened Steps
  import opened Scheduler
  import opened SchedulerInvariant
  import opened SchedulerConfluence
  import opened SchedulerTermination
  import opened SchedulerOnce
  import opened SchedulerExplained
  import opened SweepRace
  import opened SingleLaunch
  import opened Schedules
  import opened RaceStage
  import opened RaceVerdict
  import opened Outcome

  /** A successful step only depends on successful steps. */
  ghost predicate SuccessClosed(p: Plan, results: map<string, StepResult>) {
    forall n, d :: n in p.deps && n in results && results[n].status == Success && d in p.deps[n] ==>
      d in results && results[d].status == Success
  }

  // ---------------------------------------------------------------- leaves do no harm

  /** Only leaves can be launched twice. */
  ghost predicate DoublesAtLeaves(p: Plan) {
    forall n :: Doubles(p, n) ==> n in p.children && p.children[n] == []
  }

  lemma LeavesExempt(p: Plan) returns (exempt: set<string>)
    requires p.Keyed() && DoublesAtLeaves(p)
    ensures OnlyLeaves(p, exempt) && RacesExempt(p, exempt) && RepeatsExempt(p, exempt)
  {
    hide RaceAt, Repeats;
    exempt := set n | n in p.pos && n in p.children && p.children[n] == [];
    forall x | 0 <= x < |p.listing| && RaceAt(p, x) ensures p.listing[x] in exempt {
      assert Doubles(p, p.listing[x]);
    }
    forall n, d | Repeats(p, n, d) ensures n in exempt {
      assert Doubles(p, n);
    }
  }

  lemma LeavesLaunchOnce(p: Plan, run: seq<State>) returns (exempt: set<string>)
    requires p.Valid() && p.Closed() && DoublesAtLeaves(p) && IsRun(p, run) && run[0] == Init(p)
    ensures OnlyLeaves(p, exempt) && LaunchesOnceBut(p, run, exempt)
  {
    hide DoublesAtLeaves, OnlyLeaves, RacesExempt, RepeatsExempt, LaunchesOnceBut, IsRun, Plan.Closed;
    exempt := LeavesExempt(p);
    RunLaunchesOnceBut(p, run, exempt);
  }

  lemma LeafDoublesClose(p: Plan, run: seq<State>)
    requires p.Valid() && p.Closed() && CarriedSucceeded(p) && DoublesAtLeaves(p) && IsCompleteRun(p, run)
    ensures SuccessClosed(p, run[|run| - 1].results)
  {
    hide DoublesAtLeaves, OnlyLeaves, LaunchesOnceBut, Agreed, SuccessClosed, CarriedSucceeded, State.Final, IsRun, Plan.Closed;
    var exempt := LeavesLaunchOnce(p, run);
    RunAgreed(p, run, |run| - 1, exempt);
    AgreedCloses(p, run[|run| - 1]);
  }

  lemma AgreedCloses(p: Plan, s: State)
    requires p.Valid() && p.Closed() && CarriedSucceeded(p) && Agreed(p, s)
    ensures SuccessClosed(p, s.results)
  {
    hide PhasesExplained, ResultsExplained, CarriedKept, CarriedSucceeded, Plan.Closed, Plan.Linked, Plan.Sorted;
    forall n, d | n in p.deps && n in s.results && s.results[n].status == Success && d in p.deps[n]
      ensures d in s.results && s.results[d].status == Success
    {
      SuccessDeps(p, s, n, d);
    }
  }

  lemma SuccessDeps(p: Plan, s: State, n: string, d: string)
    requires p.Valid() && p.Closed() && CarriedSucceeded(p) && CarriedKept(p, s) && ResultsExplained(p, s)
    requires n in p.pos && n in s.results && s.results[n].status == Success && d in p.deps[n]
    ensures d in s.results && s.results[d].status == Success
  {
    hide Plan.Linked;
    if n in p.carry {
      assert d in p.carry && d in p.pos;
      assert s.results[d] == p.Seed(d);
    } else {
      Unfold(p, s, n);
    }
  }

  // ---------------------------------------------------------------- fixed outcomes do no harm

  /** When each step has one outcome, however often it runs, the successes are closed. */
  lemma FixedOutcomesClose(p: Plan, oracle: map<string, StepResult>, run: seq<State>)
    requires p.Valid() && p.Closed() && CarriedSucceeded(p) && IsOracle(p, oracle)
    requires IsRunWith(p, oracle, run) && run[0] == Init(p) && run[|run| - 1].Final(p)
    ensures SuccessClosed(p, run[|run| - 1].results)
  {
    hide IsRunWith, State.Final, Sequential, Plan.Linked, Plan.Sorted;
    ScheduleIndependence(p, oracle, run);
    var f := Sequential(p, oracle, |p.order|);
    forall n, d | n in p.deps && n in f && f[n].status == Success && d in p.deps[n]
      ensures d in f && f[d].status == Success
    {
      FixedDep(p, oracle, n, d);
    }
  }

  lemma FixedDep(p: Plan, oracle: map<string, StepResult>, n: string, d: string)
    requires p.Valid() && p.Closed() && CarriedSucceeded(p) && n in p.deps && d in p.deps[n]
    requires var f := Sequential(p, oracle, |p.order|); n in f && f[n].status == Success
    ensures var f := Sequential(p, oracle, |p.order|); d in f && f[d].status == Success
  {
    hide Sequential, Plan.Linked;
    SequentialFixpoint(p, oracle, n);
    if n in p.carry {
      assert d in p.carry && d in p.pos;
      SequentialFixpoint(p, oracle, d);
    }
  }

  // ---------------------------------------------------------------- a step with a child, launched twice

  lemma FirstChild(p: Plan, d: string) returns (n: string)
    requires p.Valid() && d in p.pos && p.children[d] != []
    ensures n in p.children[d] && n in p.pos && p.pos[d] < p.pos[n] && d in p.deps[n]
    ensures forall c :: c in p.children[d] ==> c in p.pos && p.pos[n] <= p.pos[c]
  {
    hide Plan.Valid;
    ChildrenKnown(p, d);
    n := Earliest(p, d, p.children[d]);
    ChildLater(p, d, n);
    forall c | c in p.children[d] ensures c in p.pos {
      ChildLater(p, d, c);
    }
  }

  lemma {:induction false} Earliest(p: Plan, d: string, cs: seq<string>) returns (n: string)
    requires p.Valid() && d in p.pos && cs != [] && forall c :: c in cs ==> c in p.children[d]
    ensures n in cs && n in p.pos && forall c :: c in cs ==> c in p.pos && p.pos[n] <= p.pos[c]
  {
    hide Plan.Valid;
    ChildLater(p, d, cs[0]);
    if |cs| == 1 {
      n := cs[0];
    } else {
      n := Earliest(p, d, cs[1..]);
      if p.pos[cs[0]] < p.pos[n] {
        n := cs[0];
      }
    }
  }

  /** At the stage, the first child waits for nothing but the step itself. */
  lemma ChildWaits(p: Plan, s: State, d: string, k: nat, l: nat, n: string)
    requires Stage(p, s, d, k, l) && d in p.pos && n in p.pos && n in p.children[d]
    requires forall c :: c in p.children[d] ==> c in p.pos && p.pos[n] <= p.pos[c]
    ensures forall e :: e in p.deps[n] ==> e == d || e in s.results
  {
    hide HeldBack, DependsOn, Settled, HeldUp, AllGood, LaunchedAfterDeps, SweepInv, NamesKnown, ProgressKnown, ResultsJustified, Covered, SlotsBounded;
    forall e | e in p.deps[n] && e != d ensures e in s.results {
      NotBehindFirst(p, d, n, e);
      NothingHeldBack(p, e);
      SettledCompletes(p, s, d, e);
    }
  }

  lemma NotBehindFirst(p: Plan, d: string, n: string, e: string)
    requires p.Valid() && d in p.pos && n in p.pos && e in p.deps[n]
    requires forall c :: c in p.children[d] ==> c in p.pos && p.pos[n] <= p.pos[c]
    ensures e in p.pos && !DependsOn(p, e, d)
  {
    hide Plan.Linked;
    if DependsOn(p, e, d) {
      var c := ChildBefore(p, e, d);
    }
  }

  /** Steps still to be recorded, and still to be launched, come no earlier than position `r`. */
  ghost predicate Above(p: Plan, s: State, r: nat) {
    && (forall x :: 0 <= x < |s.gos| && !s.gos[x].Recorded() ==> s.gos[x].step in p.pos && p.pos[s.gos[x].step] >= r)
    && (forall x, c :: 0 <= x < |s.gos| && c in s.gos[x].Pending() ==> c in p.pos && p.pos[c] >= r)
  }

  lemma AboveStep(p: Plan, s: State, a: Action, r: nat)
    requires p.Valid() && Above(p, s, r) && Enabled(p, s, a) && !a.Sweep?
    ensures Above(p, Apply(p, s, a), r)
  {
    hide Apply, Enabled, Above, Plan.Valid;
    if a.Finish? {
      AboveFinish(p, s, a.k, a.res, r);
    } else {
      AboveMove(p, s, a, r);
    }
  }

  lemma AboveMove(p: Plan, s: State, a: Action, r: nat)
    requires Above(p, s, r) && Enabled(p, s, a) && !a.Sweep? && !a.Finish?
    ensures Above(p, Apply(p, s, a), r)
  {
    hide DepsSucceeded;
    var t := Apply(p, s, a);
    if a.LaunchChild? {
      var ready := s.gos[a.k].phase.ready;
      assert ready[0] in s.gos[a.k].Pending();
      assert forall c :: c in ready[1..] ==> c in s.gos[a.k].Pending();
      assert forall x :: 0 <= x < |s.gos| && x != a.k ==> t.gos[x] == s.gos[x];
    }
  }

  lemma ReadyAbove(p: Plan, d: string, results: map<string, StepResult>, r: nat)
    requires p.Valid() && d in p.pos && p.pos[d] >= r && forall c :: c in p.children[d] ==> c in p.deps
    ensures forall c :: c in Ready(p.children[d], p.deps, results) ==> c in p.pos && p.pos[c] > p.pos[d]
  {
    hide Ready;
    ReadyMember(p.children[d], p.deps, results);
    hide Plan.Valid;
    forall c | c in Ready(p.children[d], p.deps, results) ensures c in p.pos && p.pos[c] > p.pos[d] {
      ChildLater(p, d, c);
    }
  }

  lemma AboveFinish(p: Plan, s: State, k: nat, res: StepResult, r: nat)
    requires p.Valid() && Above(p, s, r) && Enabled(p, s, Finish(k, res))
    ensures Above(p, Apply(p, s, Finish(k, res)), r)
  {
    hide Ready, Plan.Valid;
    var t := Apply(p, s, Finish(k, res));
    FinishesLater(p, s, k, r);
    ReadyAbove(p, s.gos[k].step, t.results, r);
    assert forall x :: 0 <= x < |s.gos| && x != k ==> t.gos[x] == s.gos[x];
  }

  /** `n` is executing on the strength of one success of `d`; once the launch `l` of `d` is done, `d` has failed. */
  ghost predicate Spoiling(p: Plan, s: State, d: string, n: string, m: nat, l: nat) {
    && !s.ctxDone && d in s.results && d in p.pos && d in p.deps
    && DepsSucceeded(p.deps[d], s.results)
    && (forall x :: 0 <= x < |s.gos| && s.gos[x].step == d ==> s.gos[x].phase != Skipping && s.gos[x].phase != Canceling)
    && l < |s.gos| && s.gos[l].step == d && (s.gos[l].Recorded() ==> s.results[d].status == Failed)
    && m < |s.gos| && s.gos[m] == Go(n, Executing)
    && Above(p, s, p.pos[d])
  }

  lemma SpoilingStep(p: Plan, s: State, a: Action, d: string, n: string, m: nat, l: nat)
    requires p.Valid() && Spoiling(p, s, d, n, m, l) && s.i >= |p.listing| && Guided(p, HoldOne(m), {d}, s, a)
    ensures Spoiling(p, Apply(p, s, a), d, n, m, l)
  {
    hide Ready, DepsSet, DepsSucceeded, Above, Plan.Valid;
    assert !a.Sweep? && a.k != m;
    var t := Apply(p, s, a);
    AboveStep(p, s, a, p.pos[d]);
    if a.Finish? {
      SpoilingFinish(p, s, a.k, a.res, d, l);
    }
    if a.LaunchChild? {
      assert forall x :: 0 <= x < |s.gos| && x != a.k ==> t.gos[x] == s.gos[x];
    } else {
      assert |t.gos| == |s.gos| && forall x :: 0 <= x < |s.gos| && x != a.k ==> t.gos[x] == s.gos[x];
    }
  }

  lemma StepInDeps(p: Plan, n: string)
    requires p.Valid() && n in p.pos
    ensures n in p.deps
  {
  }

  lemma DepBefore(p: Plan, d: string, e: string)
    requires p.Valid() && d in p.pos && e in p.deps[d]
    ensures e in p.pos && p.pos[e] < p.pos[d]
  {
  }

  lemma SpoilingFinish(p: Plan, s: State, k: nat, res: StepResult, d: string, l: nat)
    requires p.Valid() && d in p.pos && d in p.deps && d in s.results && Enabled(p, s, Finish(k, res)) && Above(p, s, p.pos[d])
    requires DepsSucceeded(p.deps[d], s.results)
    requires s.gos[k].step == d ==> s.gos[k].phase == Executing && res.status == Failed
    ensures DepsSucceeded(p.deps[d], s.results[s.gos[k].step := res])
    ensures s.results[s.gos[k].step := res][d] == if s.gos[k].step == d then res else s.results[d]
  {
    hide Plan.Valid, DepsSucceeded, Above;
    FinishesLater(p, s, k, p.pos[d]);
    var e := s.gos[k].step;
    StepInDeps(p, d);
    if e in p.deps[d] {
      DepBefore(p, d, e);
    }
    OtherDeps(p.deps[d], s.results, e, res);
  }

  lemma {:induction false} SpoilingAlong(p: Plan, run: seq<State>, x: nat, d: string, n: string, m: nat, l: nat)
    requires IsGuidedRun(p, HoldOne(m), {d}, run) && Inv(p, run[0]) && run[0].i >= |p.listing| && x < |run|
    requires Spoiling(p, run[0], d, n, m, l)
    ensures Spoiling(p, run[x], d, n, m, l)
  {
    hide Spoiling, Guided, Apply, Inv;
    if x > 0 {
      SpoilingAlong(p, run, x - 1, d, n, m, l);
      SweptAt(p, HoldOne(m), {d}, run, x - 1);
      assert NextGuided(p, HoldOne(m), {d}, run[x - 1], run[x]);
      var a :| Enabled(p, run[x - 1], a) && Guided(p, HoldOne(m), {d}, run[x - 1], a) && run[x] == Apply(p, run[x - 1], a);
      InvParts(p, run[x - 1]);
      SpoilingStep(p, run[x - 1], a, d, n, m, l);
    }
  }

  /** `n` has succeeded, `d` has failed, and what is left cannot change either. */
  ghost predicate Spoiled(p: Plan, s: State, d: string, n: string) {
    && d in p.pos && n in p.pos && p.pos[d] < p.pos[n]
    && d in s.results && s.results[d].status == Failed && n in s.results && s.results[n].status == Success
    && Above(p, s, p.pos[n] + 1)
  }

  lemma SpoiledStep(p: Plan, s: State, a: Action, d: string, n: string)
    requires p.Valid() && Spoiled(p, s, d, n) && Enabled(p, s, a) && s.i >= |p.listing|
    ensures Spoiled(p, Apply(p, s, a), d, n)
  {
    hide Ready, DepsSucceeded, Plan.Valid, Above;
    AboveStep(p, s, a, p.pos[n] + 1);
    if a.Finish? {
      FinishesLater(p, s, a.k, p.pos[n] + 1);
    }
  }

  lemma FinishesLater(p: Plan, s: State, k: nat, r: nat)
    requires Above(p, s, r) && k < |s.gos| && !s.gos[k].Recorded()
    ensures s.gos[k].step in p.pos && p.pos[s.gos[k].step] >= r
  {
  }

  lemma {:induction false} SpoiledAlong(p: Plan, run: seq<State>, x: nat, d: string, n: string)
    requires p.Valid() && IsRun(p, run) && run[0].i >= |p.listing| && x < |run| && Spoiled(p, run[0], d, n)
    ensures Spoiled(p, run[x], d, n)
  {
    hide Spoiled, Apply, Plan.Valid;
    if x > 0 {
      SpoiledAlong(p, run, x - 1, d, n);
      IndexAlong(p, run, x - 1);
      assert Next(p, run[x - 1], run[x]);
      var a :| Enabled(p, run[x - 1], a) && run[x] == Apply(p, run[x - 1], a);
      SpoiledStep(p, run[x - 1], a, d, n);
    }
  }

  // ---------------------------------------------------------------- the run

  /** The child has been launched and is executing, and the second launch of the step has not started. */
  lemma ChildStarts(p: Plan, s: State, d: string, k: nat, l: nat, n: string) returns (run: seq<State>, m: nat)
    requires Stage(p, s, d, k, l) && d in p.pos && n in p.pos && n in p.children[d] && d in p.deps[n]
    requires forall c :: c in p.children[d] ==> c in p.pos && p.pos[n] <= p.pos[c]
    ensures run != [] && IsRun(p, run) && run[0] == s && Inv(p, run[|run| - 1])
    ensures Spoiling(p, run[|run| - 1], d, n, m, l) && run[|run| - 1].i == |p.listing|
  {
    hide Inv, IsRun, FirstDone, Settled, HeldUp, AllGood, Ready, Spoiling;
    var fin := FirstFinishes(p, s, d, k, l, {});
    var t := fin[|fin| - 1];
    ChildWaits(p, s, d, k, l, n);
    var ready := Ready(p.children[d], p.deps, t.results);
    var at := ChildIsReady(p, s, t, d, k, n);
    var launch := LaunchAll(p, t, k, ready);
    var u := launch[|launch| - 1];
    m := |t.gos| + at;
    BeforeChild(p, s, t, u, d, k, l, n, ready, at);
    var start := StartOne(p, u, m);
    var v := start[|start| - 1];
    SpoilingStart(p, s, t, u, v, d, k, l, n, ready, at);
    Join(p, fin, launch);
    var some := fin + launch[1..];
    Join(p, some, start);
    run := some + start[1..];
    StageInv(p, s, d, k, l);
    InvAlong(p, run, |run| - 1);
  }

  lemma StageInv(p: Plan, s: State, d: string, k: nat, l: nat)
    requires Stage(p, s, d, k, l)
    ensures Inv(p, s) && s.i == |p.listing|
  {
  }

  lemma ChildIsReady(p: Plan, s: State, t: State, d: string, k: nat, n: string) returns (at: nat)
    requires k < |s.gos| && s.gos[k].step == d && d in p.children && forall c :: c in p.children[d] ==> c in p.deps
    requires FirstDone(p, s, t, k, Chosen(d, {})) && n in p.children[d]
    requires forall e :: e in p.deps[n] ==> e == d || e in s.results
    ensures var ready := Ready(p.children[d], p.deps, t.results);
            && t.gos == s.gos[k := Go(d, Launching(ready))] && at < |ready| && ready[at] == n
            && DepsSet(p.deps[n], t.results)
  {
    hide Ready;
    ReadyMember(p.children[d], p.deps, t.results);
    var ready := Ready(p.children[d], p.deps, t.results);
    assert n in ready;
    at :| at < |ready| && ready[at] == n;
  }

  /** Only the first launch of the step holds a slot, and the child's dependencies have succeeded. */
  lemma BeforeChild(p: Plan, s: State, t: State, u: State, d: string, k: nat, l: nat, n: string, ready: seq<string>, at: nat)
    requires Stage(p, s, d, k, l) && d in p.children && forall c :: c in p.children[d] ==> c in p.deps
    requires FirstDone(p, s, t, k, Chosen(d, {})) && t.gos == s.gos[k := Go(d, Launching(ready))]
    requires u == t.(gos := t.gos[k := Go(d, Launching([]))] + Fresh(ready)) && at < |ready| && ready[at] == n
    requires n in p.deps && DepsSet(p.deps[n], t.results)
    ensures |t.gos| + at < |u.gos| && u.gos[|t.gos| + at] == Go(n, Waiting) && !u.ctxDone
    ensures |u.SlotHolders()| < MAX_PARALLEL_STEPS && DepsSucceeded(p.deps[n], u.results)
  {
    hide Inv, Ready, HeldUp;
    forall x: nat | x < |u.gos| ensures u.gos[x].HoldsSlot() ==> x == k {
      if x < |s.gos| && x != k {
        assert u.gos[x] == s.gos[x];
        var stuck := Stuck(HoldStep(d), s, x);
      }
    }
    assert u.SlotHolders() <= {k};
    SubsetSize(u.SlotHolders(), {k});
  }

  lemma SpoilingStart(p: Plan, s: State, t: State, u: State, v: State, d: string, k: nat, l: nat, n: string, ready: seq<string>, at: nat)
    requires Stage(p, s, d, k, l) && d in p.pos && d in p.children && forall c :: c in p.children[d] ==> c in p.deps
    requires FirstDone(p, s, t, k, Chosen(d, {})) && t.gos == s.gos[k := Go(d, Launching(ready))]
    requires ready == Ready(p.children[d], p.deps, t.results)
    requires u == t.(gos := t.gos[k := Go(d, Launching([]))] + Fresh(ready)) && at < |ready| && ready[at] == n
    requires |t.gos| + at < |u.gos| && Moved(u, v, |t.gos| + at, Executing)
    ensures Spoiling(p, v, d, n, |t.gos| + at, l) && v.i == |p.listing|
  {
    hide Inv, Ready, AllGood, Above, DepsSucceeded, FirstDone, Moved, Settled, HeldUp, Plan.Valid;
    StageDeps(p, s, d, k, l);
    InvParts(p, s);
    GoodContext(s);
    ReadyMember(p.children[d], p.deps, t.results);
    StartFacts(p, s, t, u, v, d, k, n, ready, at);
    SpoilingShape(s, u, v, d, k, l, ready, |t.gos| + at);
    StillSucceeded(p, s, d);
    ChildrenAbove(p, v, d, ready);
  }

  lemma StartFacts(p: Plan, s: State, t: State, u: State, v: State, d: string, k: nat, n: string, ready: seq<string>, at: nat)
    requires k < |s.gos| && s.gos[k].step == d && d in p.children && forall c :: c in p.children[d] ==> c in p.deps
    requires FirstDone(p, s, t, k, Chosen(d, {})) && t.gos == s.gos[k := Go(d, Launching(ready))]
    requires u == t.(gos := t.gos[k := Go(d, Launching([]))] + Fresh(ready)) && at < |ready| && ready[at] == n
    requires |t.gos| + at < |u.gos| && Moved(u, v, |t.gos| + at, Executing)
    ensures v.results == s.results[d := Chosen(d, {})] && v.ctxDone == s.ctxDone && v.i == s.i
    ensures u.gos == s.gos[k := Go(d, Launching([]))] + Fresh(ready)
    ensures v.gos == u.gos[|t.gos| + at := Go(n, Executing)] && u.gos[|t.gos| + at].step == n
  {
    hide Ready;
    assert s.gos[k := Go(d, Launching(ready))][k := Go(d, Launching([]))] == s.gos[k := Go(d, Launching([]))];
  }

  lemma ChildrenAbove(p: Plan, v: State, d: string, ready: seq<string>)
    requires p.Valid() && d in p.pos && forall c :: c in ready ==> c in p.children[d]
    requires forall x :: 0 <= x < |v.gos| && v.gos[x].phase != Done ==> v.gos[x].step == d || v.gos[x].step in ready
    requires forall x :: 0 <= x < |v.gos| ==> v.gos[x].Pending() == []
    ensures Above(p, v, p.pos[d])
  {
    hide Plan.Valid;
    forall x | 0 <= x < |v.gos| && v.gos[x].phase != Done ensures v.gos[x].step in p.pos && p.pos[v.gos[x].step] >= p.pos[d] {
      if v.gos[x].step != d {
        ChildLater(p, d, v.gos[x].step);
      }
    }
  }

  lemma GoodContext(s: State)
    requires AllGood(s)
    ensures !s.ctxDone
  {
  }

  lemma StillSucceeded(p: Plan, s: State, d: string)
    requires p.Valid() && d in p.pos && DepsSucceeded(p.deps[d], s.results)
    ensures DepsSucceeded(p.deps[d], s.results[d := Chosen(d, {})])
  {
    hide Plan.Linked, DepsSucceeded;
    OtherDeps(p.deps[d], s.results, d, Chosen(d, {}));
  }

  /** The goroutines once the child is executing: those of the stage, and the step's children. */
  lemma SpoilingShape(s: State, u: State, v: State, d: string, k: nat, l: nat, ready: seq<string>, m: nat)
    requires Settled(HoldStep(d), s) && HeldUp(s, d) && k < l < |s.gos| && s.gos[l] == Go(d, Waiting) && s.gos[k].step == d
    requires u.gos == s.gos[k := Go(d, Launching([]))] + Fresh(ready)
    requires |s.gos| <= m < |u.gos| && v.gos == u.gos[m := Go(u.gos[m].step, Executing)]
    ensures |v.gos| == |s.gos| + |ready| && l < |v.gos| && v.gos[l] == Go(d, Waiting)
    ensures forall x :: 0 <= x < |v.gos| && v.gos[x].phase != Done ==> v.gos[x].step == d || v.gos[x].step in ready
    ensures forall x :: 0 <= x < |v.gos| ==> v.gos[x].Pending() == []
    ensures forall x :: 0 <= x < |v.gos| ==> v.gos[x].phase != Skipping && v.gos[x].phase != Canceling
  {
    forall x | 0 <= x < |v.gos|
      ensures v.gos[x].phase != Done ==> v.gos[x].step == d || v.gos[x].step in ready
      ensures v.gos[x].Pending() == [] && v.gos[x].phase != Skipping && v.gos[x].phase != Canceling
    {
      if x < |s.gos| {
        if x != k {
          assert v.gos[x] == s.gos[x];
          if s.gos[x].phase != Done {
            StuckOrDone(s, d, x);
          }
        }
      } else {
        assert u.gos[x] == Go(ready[x - |s.gos|], Waiting);
      }
    }
  }

  /** With everything but the child done, the step has failed; the child then succeeds all the same. */
  lemma ChildSucceeds(p: Plan, s: State, d: string, n: string, m: nat, l: nat) returns (run: seq<State>)
    requires Inv(p, s) && Spoiling(p, s, d, n, m, l) && Settled(HoldOne(m), s) && s.i == |p.listing| && m != l
    requires d in p.deps[n] && n in p.pos
    ensures run != [] && IsRun(p, run) && run[0] == s && Inv(p, run[|run| - 1])
    ensures Spoiled(p, run[|run| - 1], d, n) && run[|run| - 1].i == |p.listing|
  {
    hide Inv, Spoiling, Spoiled, Settled, Enabled, Apply, Plan.Valid;
    InvParts(p, s);
    var a := Finish(m, Chosen(n, {}));
    CanSucceed(p, s, d, n, m, l);
    var t := Apply(p, s, a);
    StepInv(p, s, a);
    OneStep(p, s, a);
    run := [s, t];
    SpoiledStart(p, s, t, d, n, m, l);
  }

  lemma CanSucceed(p: Plan, s: State, d: string, n: string, m: nat, l: nat)
    requires p.Valid() && n in p.pos && Spoiling(p, s, d, n, m, l)
    ensures var a := Finish(m, Chosen(n, {})); Enabled(p, s, a) && Apply(p, s, a).i == s.i
  {
    hide Plan.Valid, Above, DepsSucceeded, Ready;
    ChildrenKnown(p, n);
  }

  lemma ChildrenKnown(p: Plan, n: string)
    requires p.Valid() && n in p.pos
    ensures n in p.children && forall c :: c in p.children[n] ==> c in p.deps
  {
  }

  lemma SpoiledStart(p: Plan, s: State, t: State, d: string, n: string, m: nat, l: nat)
    requires p.Valid() && Spoiling(p, s, d, n, m, l) && Settled(HoldOne(m), s) && m != l && d in p.deps[n] && n in p.pos
    requires Enabled(p, s, Finish(m, Chosen(n, {}))) && t == Apply(p, s, Finish(m, Chosen(n, {})))
    ensures Spoiled(p, t, d, n)
  {
    hide Ready, Above, DepsSucceeded, Plan.Valid;
    DepBefore(p, n, d);
    var stuck := Stuck(HoldOne(m), s, l);
    assert t.results == s.results[n := Chosen(n, {})];
    OnlyChildren(p, s, t, n, m);
  }

  lemma OthersDone(s: State, m: nat)
    requires Settled(HoldOne(m), s)
    ensures forall x: nat :: x < |s.gos| && x != m ==> s.gos[x].phase == Done
  {
    forall x: nat | x < |s.gos| && x != m ensures s.gos[x].phase == Done {
      var stuck := Stuck(HoldOne(m), s, x);
    }
  }

  lemma OnlyChildren(p: Plan, s: State, t: State, n: string, m: nat)
    requires p.Valid() && n in p.pos && m < |s.gos| && s.gos[m].step == n && Settled(HoldOne(m), s)
    requires Enabled(p, s, Finish(m, Chosen(n, {}))) && t == Apply(p, s, Finish(m, Chosen(n, {})))
    ensures Above(p, t, p.pos[n] + 1)
  {
    hide Ready, Settled;
    ReadyMember(p.children[n], p.deps, t.results);
    hide Plan.Valid;
    OthersDone(s, m);
    assert forall x: nat :: x < |s.gos| && x != m ==> t.gos[x] == s.gos[x];
    forall c | c in t.gos[m].Pending() ensures c in p.pos && p.pos[c] > p.pos[n] {
      ChildLater(p, n, c);
    }
  }

  /** A step with a child that can be launched twice lets an attempt end with a success that depends on its failure. */
  lemma LeavesOpen(p: Plan, d: string) returns (run: seq<State>, n: string)
    requires p.Valid() && CarriedSucceeded(p) && Doubles(p, d) && !(d in p.children && p.children[d] == [])
    ensures IsCompleteRun(p, run)
    ensures var results := run[|run| - 1].results;
            && n in p.deps && d in p.deps[n] && n in results && results[n].status == Success
            && d in results && results[d].status == Failed
  {
    hide Inv, Doubles, Stage, IsRun, State.Final, CarriedSucceeded, Plan.Linked, Plan.Sorted, Spoiling, Spoiled, Settled, IsGuidedRun;
    var stage, k, l := SetAnyStage(p, d);
    var s := stage[|stage| - 1];
    StageStep(p, s, d, k, l);
    n := FirstChild(p, d);
    var tail := SpoiledRun(p, s, d, k, l, n);
    Join(p, stage, tail);
    run := stage + tail[1..];
    SpoiledMeans(p, run[|run| - 1], d, n);
    StepInDeps(p, n);
  }

  lemma StageStep(p: Plan, s: State, d: string, k: nat, l: nat)
    requires Stage(p, s, d, k, l)
    ensures d in p.pos && p.Valid()
  {
    hide Settled, HeldUp, AllGood;
    InvParts(p, s);
    assert s.gos[k].step == d;
  }

  lemma SpoiledMeans(p: Plan, s: State, d: string, n: string)
    requires Spoiled(p, s, d, n)
    ensures n in s.results && s.results[n].status == Success && d in s.results && s.results[d].status == Failed
  {
  }

  lemma SpoiledRun(p: Plan, s: State, d: string, k: nat, l: nat, n: string) returns (run: seq<State>)
    requires Stage(p, s, d, k, l) && d in p.pos && n in p.pos && n in p.children[d] && d in p.deps[n]
    requires forall c :: c in p.children[d] ==> c in p.pos && p.pos[n] <= p.pos[c]
    ensures run != [] && IsRun(p, run) && run[0] == s && run[|run| - 1].Final(p) && Spoiled(p, run[|run| - 1], d, n)
  {
    hide Inv, IsRun, State.Final, Spoiling, Spoiled, Settled, IsGuidedRun, HeldUp, AllGood, Plan.Valid;
    var start, m := ChildStarts(p, s, d, k, l, n);
    var u := start[|start| - 1];
    var fail := Settle(p, HoldOne(m), {d}, u);
    SpoilingAlong(p, fail, |fail| - 1, d, n, m, l);
    GuidedIsRun(p, HoldOne(m), {d}, fail);
    var v := fail[|fail| - 1];
    ApartLaunches(p, v, d, n, m, l);
    var child := ChildSucceeds(p, v, d, n, m, l);
    var w := child[|child| - 1];
    var end := Settle(p, HoldNone, {}, w);
    GuidedIsRun(p, HoldNone, {}, end);
    InvParts(p, w);
    SpoiledAlong(p, end, |end| - 1, d, n);
    FreeIsFinal(p, end[|end| - 1]);
    Join(p, child, end);
    var last := child + end[1..];
    Join(p, fail, last);
    var rest := fail + last[1..];
    Join(p, start, rest);
    run := start + rest[1..];
  }

  lemma ApartLaunches(p: Plan, s: State, d: string, n: string, m: nat, l: nat)
    requires Inv(p, s) && Spoiling(p, s, d, n, m, l) && d in p.deps[n] && n in p.pos
    ensures m != l
  {
    InvParts(p, s);
    hide Inv;
    assert p.pos[d] < p.pos[n];
  }

  // ---------------------------------------------------------------- the exact condition

  ghost predicate AlwaysCloses(p: Plan) {
    forall run: seq<State> :: IsCompleteRun(p, run) ==> SuccessClosed(p, run[|run| - 1].results)
  }

  /**
   With a closed, successful carried set, every complete run leaves a closed success set exactly when only
   leaves can be launched twice: those whose position races, or that repeat a dependency that can be the last.
   */
  lemma ClosesIff(p: Plan)
    requires p.Valid() && p.Closed() && CarriedSucceeded(p)
    ensures AlwaysCloses(p) <==> DoublesAtLeaves(p)
  {
    hide Doubles, Plan.Closed, CarriedSucceeded, SuccessClosed, Plan.Linked, Plan.Sorted, IsRun, State.Final;
    if DoublesAtLeaves(p) {
      forall run: seq<State> | IsCompleteRun(p, run) ensures SuccessClosed(p, run[|run| - 1].results) {
        LeafDoublesClose(p, run);
      }
    } else {
      var d :| Doubles(p, d) && !(d in p.children && p.children[d] == []);
      var run, n := LeavesOpen(p, d);
      NotClosed(p, run[|run| - 1].results, n, d);
    }
  }

  lemma NotClosed(p: Plan, results: map<string, StepResult>, n: string, d: string)
    requires n in p.deps && d in p.deps[n] && n in results && results[n].status == Success
    requires d in results && results[d].status == Failed
    ensures !SuccessClosed(p, results)
  {
  }
}
