/** What every transition of the scheduler keeps, whatever the outcomes, cancellations and interleaving. */
module SchedulerInvariant {
  import opened Steps
  import opened Scheduler

  ghost predicate NamesKnown(p: Plan, s: State) {
    && (forall k :: 0 <= k < |s.gos| ==> s.gos[k].step in p.pos)
    && (forall k, c :: 0 <= k < |s.gos| && c in s.gos[k].Pending() ==> c in p.pos)
    && s.results.Keys <= p.pos.Keys
    && (forall n :: n in s.results ==> s.results[n].name == n)
    && (forall n :: n in p.pos && n in p.carry ==> n in s.results)
  }

  ghost predicate ProgressKnown(p: Plan, s: State) {
    s.progress.Keys == p.pos.Keys && forall n :: n in s.progress ==> s.progress[n].name == n
  }

  /** A step is launched only once every one of its dependencies has a status. */
  ghost predicate LaunchedAfterDeps(p: Plan, s: State) {
    && (forall k :: 0 <= k < |s.gos| ==> s.gos[k].step in p.deps && DepsSet(p.deps[s.gos[k].step], s.results))
    && (forall k, c :: 0 <= k < |s.gos| && c in s.gos[k].Pending() ==> c in p.deps && DepsSet(p.deps[c], s.results))
  }

  ghost predicate SweepInv(p: Plan, s: State) {
    && s.i <= |p.listing|
    && (s.i == |p.listing| ==> s.j == 0)
    && (s.i < |p.listing| ==>
          && p.listing[s.i] in p.deps
          && s.j <= |p.deps[p.listing[s.i]]|
          && forall x :: 0 <= x < s.j ==> p.deps[p.listing[s.i]][x] in s.results)
  }

  /** A status is there because the step was carried over or because a goroutine recorded it. */
  ghost predicate ResultsJustified(p: Plan, s: State) {
    && (forall k :: 0 <= k < |s.gos| && s.gos[k].Recorded() ==> s.gos[k].step in s.results)
    && (forall n :: n in s.results && n !in p.carry ==> RecordedBy(s, n))
  }

  ghost predicate RecordedBy(s: State, n: string) {
    exists k :: 0 <= k < |s.gos| && s.gos[k].step == n && s.gos[k].Recorded()
  }

  /** `n` waits for at least one step that is not carried over. */
  ghost predicate HasFreshDep(p: Plan, n: string) {
    n in p.deps && exists d :: d in p.deps[n] && d !in p.carry
  }

  /**
   No launch is forgotten: a step whose dependencies all have a status has been launched, by the
   last of them if one was not carried over, and by the sweep otherwise.
   */
  ghost predicate Covered(p: Plan, s: State) {
    CoveredByLast(p, s) && CoveredBySweep(p, s)
  }

  ghost predicate CoveredByLast(p: Plan, s: State) {
    forall n :: HasFreshDep(p, n) && DepsSet(p.deps[n], s.results) ==> s.Launched(n)
  }

  ghost predicate CoveredBySweep(p: Plan, s: State) {
    forall x :: 0 <= x < s.i && x < |p.listing| && p.listing[x] !in p.carry && !HasFreshDep(p, p.listing[x]) ==>
      s.Launched(p.listing[x])
  }

  /** Carried dependencies have a status from the start. */
  ghost predicate CarriedSet(p: Plan, s: State) {
    forall n, d :: n in p.deps && d in p.deps[n] && d in p.carry ==> d in s.results
  }

  ghost predicate SlotsBounded(s: State) {
    |s.SlotHolders()| <= MAX_PARALLEL_STEPS
  }

  ghost predicate Inv(p: Plan, s: State) {
    && p.Valid()
    && NamesKnown(p, s)
    && ProgressKnown(p, s)
    && LaunchedAfterDeps(p, s)
    && SweepInv(p, s)
    && ResultsJustified(p, s)
    && Covered(p, s)
    && SlotsBounded(s)
  }

  lemma InitInv(p: Plan)
    requires p.Valid()
    ensures Inv(p, Init(p))
  {
    hide NamesKnown, ProgressKnown, Covered, SlotsBounded;
    hide Plan.Linked, Plan.Sorted;
    InitNames(p);
    InitCovered(p);
  }

  lemma InitNames(p: Plan)
    requires p.Keyed()
    ensures NamesKnown(p, Init(p)) && ProgressKnown(p, Init(p)) && SlotsBounded(Init(p))
  {
    assert Init(p).SlotHolders() == {};
  }

  lemma InitCovered(p: Plan)
    ensures Covered(p, Init(p))
  {
    var s := Init(p);
    forall n | HasFreshDep(p, n) ensures !DepsSet(p.deps[n], s.results) {
      var d :| d in p.deps[n] && d !in p.carry;
      assert d !in s.results;
    }
  }

  // ---------------------------------------------------------------- launches and results accumulate

  ghost predicate Grows(s: State, t: State) {
    && s.results.Keys <= t.results.Keys
    && s.i <= t.i
    && |s.gos| <= |t.gos|
    && (forall k :: 0 <= k < |s.gos| ==> t.gos[k].step == s.gos[k].step && (s.gos[k].Recorded() ==> t.gos[k].Recorded()))
  }

  lemma StepGrows(p: Plan, s: State, a: Action)
    requires Enabled(p, s, a)
    ensures Grows(s, Apply(p, s, a))
  {
    hide Enabled, Apply;
    var t := Apply(p, s, a);
    SharedGrows(p, s, a);
    forall k | 0 <= k < |s.gos|
      ensures t.gos[k].step == s.gos[k].step && (s.gos[k].Recorded() ==> t.gos[k].Recorded())
    {
      GoroutineGrows(p, s, a, k);
    }
  }

  lemma SharedGrows(p: Plan, s: State, a: Action)
    requires Enabled(p, s, a)
    ensures var t := Apply(p, s, a); s.results.Keys <= t.results.Keys && s.i <= t.i && |s.gos| <= |t.gos|
  {
    hide Ready, DepsSucceeded;
  }

  lemma GoroutineGrows(p: Plan, s: State, a: Action, k: nat)
    requires Enabled(p, s, a) && k < |s.gos| <= |Apply(p, s, a).gos|
    ensures var g := Apply(p, s, a).gos[k]; g.step == s.gos[k].step && (s.gos[k].Recorded() ==> g.Recorded())
  {
    hide Ready, DepsSucceeded, DepsSet;
    if a.Sweep? || a.CancelContext? || a.LaunchChild? {
      assert a.LaunchChild? || Apply(p, s, a).gos[k] == s.gos[k];
    } else if k != a.k {
      assert Apply(p, s, a).gos[k] == s.gos[k];
    }
  }

  lemma StillLaunched(p: Plan, s: State, a: Action, n: string)
    requires Enabled(p, s, a) && s.Launched(n)
    ensures Apply(p, s, a).Launched(n)
  {
    hide Ready, DepsSucceeded;
    var t := Apply(p, s, a);
    var x :| 0 <= x < |s.gos| && (s.gos[x].step == n || n in s.gos[x].Pending());
    match a
    case LaunchChild(k) =>
      var ready := s.gos[k].phase.ready;
      assert ready == [ready[0]] + ready[1..];
      assert t.gos[|s.gos|].step == ready[0] && t.gos[k] == Go(s.gos[k].step, Launching(ready[1..]));
      if x != k {
        assert t.gos[x] == s.gos[x];
      }
    case Sweep => assert t.gos[x] == s.gos[x];
    case CancelContext => assert t.gos[x] == s.gos[x];
    case _ =>
      if x != a.k {
        assert t.gos[x] == s.gos[x];
      } else {
        assert t.gos[x].step == s.gos[x].step && s.gos[x].Pending() == [];
      }
  }

  // ---------------------------------------------------------------- one lemma per conjunct

  /** What a transition does to the names in play, in one place. */
  ghost predicate Effect(p: Plan, s: State, a: Action, t: State) {
    && |s.gos| <= |t.gos|
    && (forall k :: 0 <= k < |s.gos| ==> t.gos[k].step == s.gos[k].step)
    && (forall k, c :: 0 <= k < |s.gos| && c in t.gos[k].Pending() ==> c in s.gos[k].Pending() || NewlyReady(p, s, a, t, k, c))
    && (forall k :: |s.gos| <= k < |t.gos| ==> t.gos[k].phase == Waiting && NewlyLaunched(p, s, a, t.gos[k].step))
    && s.results.Keys <= t.results.Keys
    && (forall n :: n in t.results ==> (n in s.results && t.results[n] == s.results[n]) || Records(s, a, n, t.results[n]))
  }

  ghost predicate NewlyReady(p: Plan, s: State, a: Action, t: State, k: nat, c: string) {
    a.Finish? && a.k == k < |s.gos| && s.gos[k].step in p.children && c in p.children[s.gos[k].step]
    && c in p.deps && DepsSet(p.deps[c], t.results)
  }

  ghost predicate NewlyLaunched(p: Plan, s: State, a: Action, n: string) {
    || (a.Sweep? && s.i < |p.listing| && n == p.listing[s.i] && n in p.deps && n !in p.carry && s.j >= |p.deps[n]|)
    || (a.LaunchChild? && a.k < |s.gos| && n in s.gos[a.k].Pending())
  }

  ghost predicate Records(s: State, a: Action, n: string, res: StepResult) {
    a.Finish? && a.k < |s.gos| && n == s.gos[a.k].step && res == a.res && res.name == n
  }

  lemma FinishEffect(p: Plan, s: State, k: nat, res: StepResult)
    requires Enabled(p, s, Finish(k, res))
    ensures Effect(p, s, Finish(k, res), Apply(p, s, Finish(k, res)))
  {
    var t := Apply(p, s, Finish(k, res));
    var n := s.gos[k].step;
    ReadyMember(p.children[n], p.deps, t.results);
    assert t.gos[k].Pending() == Ready(p.children[n], p.deps, t.results);
    forall c | c in t.gos[k].Pending() ensures NewlyReady(p, s, Finish(k, res), t, k, c) {
    }
    assert forall x :: 0 <= x < |s.gos| && x != k ==> t.gos[x] == s.gos[x];
    assert Records(s, Finish(k, res), n, res);
  }

  lemma StepEffect(p: Plan, s: State, a: Action)
    requires Enabled(p, s, a)
    ensures Effect(p, s, a, Apply(p, s, a))
  {
    var t := Apply(p, s, a);
    match a
    case Finish(k, res) => FinishEffect(p, s, k, res);
    case LaunchChild(k) => LaunchEffect(p, s, k);
    case Sweep =>
    case CancelContext =>
    case _ => MoveEffect(p, s, a, t);
  }

  lemma LaunchEffect(p: Plan, s: State, k: nat)
    requires Enabled(p, s, LaunchChild(k))
    ensures Effect(p, s, LaunchChild(k), Apply(p, s, LaunchChild(k)))
  {
    var t := Apply(p, s, LaunchChild(k));
    assert t.gos[k].Pending() == s.gos[k].phase.ready[1..];
    assert t.gos[|s.gos|] == Go(s.gos[k].phase.ready[0], Waiting);
    assert NewlyLaunched(p, s, LaunchChild(k), s.gos[k].phase.ready[0]);
  }

  lemma MoveEffect(p: Plan, s: State, a: Action, t: State)
    requires (a.Acquire? || a.Decide? || a.Proceed? || a.Release?) && a.k < |s.gos|
    requires exists phase: Phase :: t.gos == s.gos[a.k := Go(s.gos[a.k].step, phase)] && Go(s.gos[a.k].step, phase).Pending() == []
    requires t.results == s.results
    ensures Effect(p, s, a, t)
  {
  }

  lemma NamesStep(p: Plan, s: State, a: Action, t: State)
    requires p.Keyed() && p.Linked() && NamesKnown(p, s) && Effect(p, s, a, t)
    ensures NamesKnown(p, t)
  {
    forall k, c | 0 <= k < |t.gos| && c in t.gos[k].Pending() ensures c in p.pos {
      assert c in s.gos[k].Pending() || NewlyReady(p, s, a, t, k, c);
    }
    forall k | 0 <= k < |t.gos| ensures t.gos[k].step in p.pos {
      if k >= |s.gos| {
        assert NewlyLaunched(p, s, a, t.gos[k].step);
      }
    }
  }

  lemma ProgressStep(p: Plan, s: State, a: Action)
    requires NamesKnown(p, s) && ProgressKnown(p, s) && Enabled(p, s, a)
    ensures ProgressKnown(p, Apply(p, s, a))
  {
    hide Ready, DepsSucceeded;
  }

  lemma LaunchedStep(p: Plan, s: State, a: Action, t: State)
    requires LaunchedAfterDeps(p, s) && SweepInv(p, s) && Effect(p, s, a, t)
    ensures LaunchedAfterDeps(p, t)
  {
    forall k | 0 <= k < |t.gos| ensures t.gos[k].step in p.deps && DepsSet(p.deps[t.gos[k].step], t.results) {
      if k >= |s.gos| {
        assert NewlyLaunched(p, s, a, t.gos[k].step);
      }
    }
    forall k, c | 0 <= k < |t.gos| && c in t.gos[k].Pending() ensures c in p.deps && DepsSet(p.deps[c], t.results) {
      assert k < |s.gos|;
    }
  }

  lemma SweepInvStep(p: Plan, s: State, a: Action)
    requires p.Keyed() && SweepInv(p, s) && Enabled(p, s, a)
    ensures SweepInv(p, Apply(p, s, a))
  {
    StepGrows(p, s, a);
  }

  lemma RecordedStep(p: Plan, s: State, a: Action, k: nat)
    requires ResultsJustified(p, s) && Enabled(p, s, a) && k < |Apply(p, s, a).gos| && Apply(p, s, a).gos[k].Recorded()
    ensures Apply(p, s, a).gos[k].step in Apply(p, s, a).results
  {
    hide Ready, DepsSucceeded, RecordedBy;
    StepGrows(p, s, a);
    if !a.Finish? {
      assert k < |s.gos| && s.gos[k].Recorded();
    }
  }

  lemma JustifiedStep(p: Plan, s: State, a: Action)
    requires ResultsJustified(p, s) && Enabled(p, s, a)
    ensures ResultsJustified(p, Apply(p, s, a))
  {
    hide Ready, DepsSucceeded, RecordedBy, Enabled, Apply;
    var t := Apply(p, s, a);
    StepGrows(p, s, a);
    StepEffect(p, s, a);
    forall k | 0 <= k < |t.gos| && t.gos[k].Recorded() ensures t.gos[k].step in t.results {
      RecordedStep(p, s, a, k);
    }
    forall n | n in t.results && n !in p.carry ensures RecordedBy(t, n) {
      if n in s.results {
        StillRecorded(s, t, n);
      } else {
        FinishRecords(p, s, a, n);
      }
    }
  }

  lemma FinishRecords(p: Plan, s: State, a: Action, n: string)
    requires Enabled(p, s, a) && n in Apply(p, s, a).results && n !in s.results
    ensures RecordedBy(Apply(p, s, a), n)
  {
    hide Ready, DepsSucceeded;
    assert a.Finish? && n == s.gos[a.k].step;
    assert Apply(p, s, a).gos[a.k].step == n;
  }

  lemma StillRecorded(s: State, t: State, n: string)
    requires Grows(s, t) && RecordedBy(s, n)
    ensures RecordedBy(t, n)
  {
    var x :| 0 <= x < |s.gos| && s.gos[x].step == n && s.gos[x].Recorded();
    assert t.gos[x].step == n && t.gos[x].Recorded();
  }

  /** The completion that gives `c` its last dependency status is the one that launches it. */
  lemma CompletionLaunches(p: Plan, s: State, a: Action, c: string)
    requires p.Keyed() && p.Linked() && Enabled(p, s, a) && a.Finish?
    requires c in p.deps && !DepsSet(p.deps[c], s.results) && DepsSet(p.deps[c], Apply(p, s, a).results)
    ensures Apply(p, s, a).Launched(c)
  {
    var t := Apply(p, s, a);
    var n := s.gos[a.k].step;
    assert n in p.deps[c];
    assert c in p.children[n];
    ReadyMember(p.children[n], p.deps, t.results);
    assert c in t.gos[a.k].Pending();
  }

  lemma CoveredByLastStep(p: Plan, s: State, a: Action)
    requires p.Keyed() && p.Linked() && CoveredByLast(p, s) && Enabled(p, s, a)
    ensures CoveredByLast(p, Apply(p, s, a))
  {
    hide Enabled, Apply, DepsSet, State.Launched, Plan.Linked;
    var t := Apply(p, s, a);
    forall n | HasFreshDep(p, n) && DepsSet(p.deps[n], t.results) ensures t.Launched(n) {
      CoveredFresh(p, s, a, n);
    }
  }

  lemma CoveredBySweepStep(p: Plan, s: State, a: Action)
    requires p.Keyed() && CarriedSet(p, s) && CoveredBySweep(p, s) && Enabled(p, s, a)
    ensures CoveredBySweep(p, Apply(p, s, a))
  {
    hide Apply, State.Launched;
    var t := Apply(p, s, a);
    SweepMoves(p, s, a);
    forall x | 0 <= x < t.i && x < |p.listing| && p.listing[x] !in p.carry && !HasFreshDep(p, p.listing[x])
      ensures t.Launched(p.listing[x])
    {
      if x == s.i {
        assert DepsSet(p.deps[p.listing[x]], s.results);
        SweepLaunches(p, s);
      } else {
        StillLaunched(p, s, a, p.listing[x]);
      }
    }
  }

  lemma SweepMoves(p: Plan, s: State, a: Action)
    requires Enabled(p, s, a)
    ensures Apply(p, s, a).i == s.i || (a.Sweep? && Apply(p, s, a).i == s.i + 1)
  {
  }

  lemma OnlyFinishRecords(p: Plan, s: State, a: Action)
    requires Enabled(p, s, a)
    ensures !a.Finish? ==> Apply(p, s, a).results == s.results
  {
    hide Ready, DepsSucceeded;
  }

  lemma CoveredFresh(p: Plan, s: State, a: Action, n: string)
    requires p.Keyed() && p.Linked() && Enabled(p, s, a)
    requires HasFreshDep(p, n) && DepsSet(p.deps[n], Apply(p, s, a).results)
    requires DepsSet(p.deps[n], s.results) ==> s.Launched(n)
    ensures Apply(p, s, a).Launched(n)
  {
    hide Enabled, Apply, DepsSet, State.Launched, Plan.Linked;
    OnlyFinishRecords(p, s, a);
    if DepsSet(p.deps[n], s.results) {
      StillLaunched(p, s, a, n);
    } else {
      CompletionLaunches(p, s, a, n);
    }
  }

  /** The sweep launches every declared step that waits for carried steps only. */
  lemma SweepLaunches(p: Plan, s: State)
    requires Enabled(p, s, Sweep) && p.listing[s.i] !in p.carry && DepsSet(p.deps[p.listing[s.i]], s.results)
    ensures var t := Apply(p, s, Sweep); t.i == s.i + 1 ==> t.Launched(p.listing[s.i])
  {
    var t := Apply(p, s, Sweep);
    var n := p.listing[s.i];
    if t.i == s.i + 1 {
      assert forall x :: 0 <= x < |p.deps[n]| ==> p.deps[n][x] in p.deps[n];
      assert t.gos[|s.gos|].step == n;
    }
  }

  lemma SlotsStep(p: Plan, s: State, a: Action)
    requires SlotsBounded(s) && Enabled(p, s, a)
    ensures SlotsBounded(Apply(p, s, a))
  {
    hide Ready, DepsSucceeded;
    var t := Apply(p, s, a);
    var before := s.SlotHolders();
    var room := if a.Acquire? then before + {a.k} else before;
    assert t.SlotHolders() <= room;
    SubsetSize(t.SlotHolders(), room);
  }

  lemma CarriedHasResult(p: Plan, s: State)
    requires p.Keyed() && p.Sorted() && NamesKnown(p, s)
    ensures CarriedSet(p, s)
  {
  }

  lemma SubsetSize<T>(a: set<T>, b: set<T>)
    requires a <= b
    ensures |a| <= |b|
  {
    assert b == a + (b - a);
  }

  lemma StepInv(p: Plan, s: State, a: Action)
    requires Inv(p, s) && Enabled(p, s, a)
    ensures Inv(p, Apply(p, s, a))
  {
    hide NamesKnown, ProgressKnown, LaunchedAfterDeps, SweepInv, ResultsJustified, CoveredByLast, CoveredBySweep, SlotsBounded, CarriedSet, Effect, Enabled, Apply;
    hide Plan.Keyed, Plan.Linked, Plan.Sorted;
    var t := Apply(p, s, a);
    StepEffect(p, s, a);
    NamesStep(p, s, a, t);
    ProgressStep(p, s, a);
    LaunchedStep(p, s, a, t);
    SweepInvStep(p, s, a);
    JustifiedStep(p, s, a);
    CarriedHasResult(p, s);
    CoveredByLastStep(p, s, a);
    CoveredBySweepStep(p, s, a);
    SlotsStep(p, s, a);
  }

  // ---------------------------------------------------------------- over whole runs

  lemma {:induction false} RunInv(p: Plan, run: seq<State>, x: nat)
    requires IsRun(p, run) && Inv(p, run[0]) && x < |run|
    ensures Inv(p, run[x])
  {
    hide Inv;
    if x > 0 {
      RunInv(p, run, x - 1);
      assert Next(p, run[x - 1], run[x]);
      var a :| Enabled(p, run[x - 1], a) && run[x] == Apply(p, run[x - 1], a);
      StepInv(p, run[x - 1], a);
    }
  }

  lemma ReachableInv(p: Plan, s: State)
    requires p.Valid() && Reachable(p, s)
    ensures Inv(p, s)
  {
    hide Inv;
    var run :| IsRun(p, run) && run[0] == Init(p) && run[|run| - 1] == s;
    InitInv(p);
    RunInv(p, run, |run| - 1);
  }

  /**
   When the scheduler returns, every step has a result: children are launched before their launcher
   is done, so the wait group cannot reach zero early.
   */
  lemma {:induction false} AllSetWhenFinal(p: Plan, s: State, n: string)
    requires p.Valid() && NamesKnown(p, s) && ResultsJustified(p, s) && Covered(p, s) && s.Final(p) && n in p.pos
    ensures n in s.results
    decreases p.pos[n]
  {
    forall d | d in p.deps[n] ensures d in s.results {
      AllSetWhenFinal(p, s, d);
    }
    if n !in p.carry {
      var x :| 0 <= x < |p.listing| && p.listing[x] == n;
      assert HasFreshDep(p, n) || s.Launched(p.listing[x]);
      LaunchedWhenFinal(p, s, n);
    }
  }

  lemma LaunchedWhenFinal(p: Plan, s: State, n: string)
    requires ResultsJustified(p, s) && s.Final(p) && s.Launched(n)
    ensures n in s.results
  {
    var k :| 0 <= k < |s.gos| && (s.gos[k].step == n || n in s.gos[k].Pending());
    assert s.gos[k].phase == Done;
    assert s.gos[k].Recorded();
  }

  lemma FinalHasAllResults(p: Plan, s: State)
    requires Inv(p, s) && s.Final(p)
    ensures s.results.Keys == p.pos.Keys
  {
    forall n | n in p.pos ensures n in s.results {
      AllSetWhenFinal(p, s, n);
    }
  }
}
