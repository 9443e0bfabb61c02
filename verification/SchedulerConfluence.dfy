/**
 Schedule independence. If running a step always yields the same result, the context is never
 canceled and carried steps only depend on carried steps, then every complete interleaving ends with
 the results of one sequential pass over the order, even when the unlocked sweep launches a step a
 second time.
 */
module SchedulerConfluence {
  import opened Steps
  import opened Scheduler
  import opened SchedulerInvariant

  // ---------------------------------------------------------------- the sequential reference

  /** Each declared step's fixed outcome. */
  ghost predicate IsOracle(p: Plan, oracle: map<string, StepResult>) {
    && oracle.Keys == p.pos.Keys
    && (forall n :: n in oracle ==> oracle[n].name == n && (oracle[n].status == Success || oracle[n].status == Failed))
  }

  /** The first `k` steps of the order, one after the other. */
  function Sequential(p: Plan, oracle: map<string, StepResult>, k: nat): map<string, StepResult>
    requires k <= |p.order|
  {
    if k == 0 then map[]
    else
      var n := p.order[k - 1];
      var before := Sequential(p, oracle, k - 1);
      before[n := Verdict(p, oracle, n, before)]
  }

  function Verdict(p: Plan, oracle: map<string, StepResult>, n: string, results: map<string, StepResult>): StepResult {
    if n in p.carry then p.Seed(n)
    else if n in p.deps && !DepsSucceeded(p.deps[n], results) then SkippedResult(n)
    else if n in oracle then oracle[n]
    else SkippedResult(n)
  }

  lemma {:induction false} SequentialKeys(p: Plan, oracle: map<string, StepResult>, k: nat)
    requires k <= |p.order|
    ensures forall n :: n in Sequential(p, oracle, k) <==> exists i :: 0 <= i < k && p.order[i] == n
  {
    if k > 0 {
      SequentialKeys(p, oracle, k - 1);
    }
  }

  lemma {:induction false} SequentialStable(p: Plan, oracle: map<string, StepResult>, i: nat, k: nat)
    requires p.Valid() && i < k <= |p.order|
    ensures p.order[i] in Sequential(p, oracle, k)
    ensures Sequential(p, oracle, k)[p.order[i]] == Verdict(p, oracle, p.order[i], Sequential(p, oracle, i))
    decreases k
  {
    hide Verdict, Plan.Keyed, Plan.Linked, Plan.Sorted;
    if i < k - 1 {
      SequentialStable(p, oracle, i, k - 1);
      OrderDistinct(p, i, k - 1);
    }
  }

  lemma OrderDistinct(p: Plan, i: nat, j: nat)
    requires p.Valid() && i < j < |p.order|
    ensures p.order[i] != p.order[j]
  {
    assert p.pos[p.order[i]] == i && p.pos[p.order[j]] == j;
  }

  /** The reference is the one result vector in which every step agrees with its dependencies. */
  lemma SequentialFixpoint(p: Plan, oracle: map<string, StepResult>, n: string)
    requires p.Valid() && n in p.pos
    ensures var f := Sequential(p, oracle, |p.order|);
            n in f && f[n] == Verdict(p, oracle, n, f)
  {
    hide Sequential, Plan.Linked;
    var f := Sequential(p, oracle, |p.order|);
    var i := p.pos[n];
    var before := Sequential(p, oracle, i);
    assert p.order[i] == n;
    SequentialStable(p, oracle, i, |p.order|);
    forall d | d in p.deps[n] ensures d in f && d in before && f[d] == before[d] {
      SequentialAgree(p, oracle, n, d);
    }
    assert DepsSucceeded(p.deps[n], before) <==> DepsSucceeded(p.deps[n], f);
  }

  lemma SequentialAgree(p: Plan, oracle: map<string, StepResult>, n: string, d: string)
    requires p.Valid() && n in p.pos && d in p.deps[n]
    ensures var f := Sequential(p, oracle, |p.order|); var before := Sequential(p, oracle, p.pos[n]);
            d in f && d in before && f[d] == before[d]
  {
    hide Sequential, Verdict, Plan.Linked;
    assert p.order[p.pos[d]] == d;
    SequentialStable(p, oracle, p.pos[d], |p.order|);
    SequentialStable(p, oracle, p.pos[d], p.pos[n]);
  }

  // ---------------------------------------------------------------- carried steps stay put

  ghost predicate NoCarriedLaunch(p: Plan, s: State) {
    && (forall k :: 0 <= k < |s.gos| ==> s.gos[k].step !in p.carry)
    && (forall k, c :: 0 <= k < |s.gos| && c in s.gos[k].Pending() ==> c !in p.carry)
  }

  lemma NoCarriedStep(p: Plan, s: State, a: Action, t: State)
    requires p.Keyed() && p.Linked() && p.Closed() && NamesKnown(p, s) && NoCarriedLaunch(p, s) && Effect(p, s, a, t)
    ensures NoCarriedLaunch(p, t)
  {
    forall k | 0 <= k < |t.gos| ensures t.gos[k].step !in p.carry {
      if k >= |s.gos| {
        assert NewlyLaunched(p, s, a, t.gos[k].step);
      }
    }
    forall k, c | 0 <= k < |t.gos| && c in t.gos[k].Pending() ensures c !in p.carry {
      if k < |s.gos| && c !in s.gos[k].Pending() {
        FreshChild(p, s, a, t, k, c);
      }
    }
  }

  lemma FreshChild(p: Plan, s: State, a: Action, t: State, k: nat, c: string)
    requires p.Keyed() && p.Linked() && p.Closed() && NamesKnown(p, s) && NewlyReady(p, s, a, t, k, c)
    requires s.gos[k].step !in p.carry
    ensures c !in p.carry
  {
    assert s.gos[k].step in p.deps[c];
  }

  // ---------------------------------------------------------------- agreement with the reference

  /** The environment runs step `n` with outcome `oracle[n]` and never cancels. */
  ghost predicate Follows(oracle: map<string, StepResult>, s: State, a: Action) {
    && !a.CancelContext?
    && (a.Finish? && a.k < |s.gos| && s.gos[a.k].phase == Executing ==>
          s.gos[a.k].step in oracle && a.res == oracle[s.gos[a.k].step])
  }

  ghost predicate NextWith(p: Plan, oracle: map<string, StepResult>, s: State, t: State) {
    exists a :: Enabled(p, s, a) && Follows(oracle, s, a) && t == Apply(p, s, a)
  }

  ghost predicate IsRunWith(p: Plan, oracle: map<string, StepResult>, run: seq<State>) {
    run != [] && forall x :: 0 <= x < |run| - 1 ==> NextWith(p, oracle, run[x], run[x + 1])
  }

  /** What a goroutine is doing agrees with the reference `f`. */
  ghost predicate PhaseAgrees(oracle: map<string, StepResult>, f: map<string, StepResult>, g: Goroutine) {
    && g.phase != Canceling
    && (g.phase == Skipping ==> g.step in f && f[g.step] == SkippedResult(g.step))
    && (g.phase == Cleared || g.phase == Executing ==> g.step in f && g.step in oracle && f[g.step] == oracle[g.step])
  }

  ghost predicate Agrees(p: Plan, oracle: map<string, StepResult>, f: map<string, StepResult>, s: State) {
    && !s.ctxDone && !s.canceled
    && (forall n :: n in s.results ==> n in f && s.results[n] == f[n])
    && (forall k :: 0 <= k < |s.gos| ==> PhaseAgrees(oracle, f, s.gos[k]))
  }

  /** The failure flag is up exactly when a step that is not carried has failed. */
  ghost predicate FlagAgrees(p: Plan, s: State) {
    s.failed <==> exists n :: n in s.results && n !in p.carry && s.results[n].status == Failed
  }

  lemma DecideAgrees(p: Plan, oracle: map<string, StepResult>, s: State, n: string)
    requires p.Valid() && IsOracle(p, oracle) && n in p.pos && n !in p.carry
    requires DepsSet(p.deps[n], s.results)
    requires var f := Sequential(p, oracle, |p.order|); forall m :: m in s.results ==> m in f && s.results[m] == f[m]
    ensures var f := Sequential(p, oracle, |p.order|);
            n in f && f[n] == if DepsSucceeded(p.deps[n], s.results) then oracle[n] else SkippedResult(n)
  {
    var f := Sequential(p, oracle, |p.order|);
    SequentialFixpoint(p, oracle, n);
    assert DepsSucceeded(p.deps[n], s.results) <==> DepsSucceeded(p.deps[n], f);
  }

  lemma AgreesStep(p: Plan, oracle: map<string, StepResult>, f: map<string, StepResult>, s: State, a: Action)
    requires Enabled(p, s, a) && Follows(oracle, s, a) && Agrees(p, oracle, f, s)
    requires a.Decide? ==> var n := s.gos[a.k].step;
               n in oracle && n in f && f[n] == if DepsSucceeded(p.deps[n], s.results) then oracle[n] else SkippedResult(n)
    requires forall n :: n in oracle ==> oracle[n].status != Canceled
    ensures Agrees(p, oracle, f, Apply(p, s, a))
  {
    hide Ready, DepsSucceeded, PhaseAgrees, Apply;
    match a
    case Finish(k, res) => FinishAgrees(p, oracle, f, s, k, res);
    case CancelContext => assert false;
    case Sweep => SpawnAgrees(p, oracle, f, s, a);
    case LaunchChild(k) => SpawnAgrees(p, oracle, f, s, a);
    case _ => MoveAgrees(p, oracle, f, s, a);
  }

  lemma SpawnAgrees(p: Plan, oracle: map<string, StepResult>, f: map<string, StepResult>, s: State, a: Action)
    requires Enabled(p, s, a) && (a.Sweep? || a.LaunchChild?) && Agrees(p, oracle, f, s)
    ensures Agrees(p, oracle, f, Apply(p, s, a))
  {
    var t := Apply(p, s, a);
    forall x | 0 <= x < |t.gos| ensures PhaseAgrees(oracle, f, t.gos[x]) {
      if x < |s.gos| {
        assert PhaseAgrees(oracle, f, s.gos[x]);
        assert t.gos[x] == s.gos[x] || t.gos[x].phase.Launching?;
      } else {
        assert t.gos[x].phase == Waiting;
      }
    }
  }

  lemma FinishAgrees(p: Plan, oracle: map<string, StepResult>, f: map<string, StepResult>, s: State, k: nat, res: StepResult)
    requires Enabled(p, s, Finish(k, res)) && Follows(oracle, s, Finish(k, res)) && Agrees(p, oracle, f, s)
    requires forall n :: n in oracle ==> oracle[n].status != Canceled
    ensures Agrees(p, oracle, f, Apply(p, s, Finish(k, res)))
  {
    hide Ready, DepsSucceeded;
    var t := Apply(p, s, Finish(k, res));
    assert PhaseAgrees(oracle, f, s.gos[k]);
    assert forall x :: 0 <= x < |s.gos| && x != k ==> t.gos[x] == s.gos[x];
    assert t.gos[k].phase.Launching?;
  }

  lemma MoveAgrees(p: Plan, oracle: map<string, StepResult>, f: map<string, StepResult>, s: State, a: Action)
    requires a.Acquire? || a.Decide? || a.Proceed? || a.Release?
    requires Enabled(p, s, a) && Agrees(p, oracle, f, s)
    requires a.Decide? ==> var n := s.gos[a.k].step;
               n in oracle && n in f && f[n] == if DepsSucceeded(p.deps[n], s.results) then oracle[n] else SkippedResult(n)
    ensures Agrees(p, oracle, f, Apply(p, s, a))
  {
    hide Ready, DepsSucceeded;
    var t := Apply(p, s, a);
    assert PhaseAgrees(oracle, f, s.gos[a.k]);
    assert PhaseAgrees(oracle, f, t.gos[a.k]);
    assert forall x :: 0 <= x < |s.gos| && x != a.k ==> t.gos[x] == s.gos[x];
  }

  lemma FlagStep(p: Plan, oracle: map<string, StepResult>, f: map<string, StepResult>, s: State, a: Action)
    requires Enabled(p, s, a) && Agrees(p, oracle, f, s) && Agrees(p, oracle, f, Apply(p, s, a))
    requires FlagAgrees(p, s) && NoCarriedLaunch(p, s)
    ensures FlagAgrees(p, Apply(p, s, a))
  {
    hide Ready, DepsSucceeded, PhaseAgrees;
    var t := Apply(p, s, a);
    if a.Finish? {
      var n := s.gos[a.k].step;
      assert n in t.results && t.results[n] == a.res;
      assert n in s.results ==> s.results[n] == f[n] && t.results[n] == f[n];
      assert forall m :: m in t.results <==> m in s.results || m == n;
      assert forall m :: m in s.results && m != n ==> t.results[m] == s.results[m];
    } else {
      OnlyFinishRecords(p, s, a);
    }
  }

  ghost predicate Tracks(p: Plan, oracle: map<string, StepResult>, s: State) {
    && Inv(p, s)
    && NoCarriedLaunch(p, s)
    && Agrees(p, oracle, Sequential(p, oracle, |p.order|), s)
    && FlagAgrees(p, s)
  }

  lemma InitTracks(p: Plan, oracle: map<string, StepResult>)
    requires p.Valid()
    ensures Tracks(p, oracle, Init(p))
  {
    hide Inv, FlagAgrees, Agrees;
    InitInv(p);
    InitAgrees(p, oracle);
    InitFlag(p);
  }

  lemma InitFlag(p: Plan)
    ensures FlagAgrees(p, Init(p))
  {
  }

  lemma InitAgrees(p: Plan, oracle: map<string, StepResult>)
    requires p.Valid()
    ensures Agrees(p, oracle, Sequential(p, oracle, |p.order|), Init(p))
  {
    hide Sequential, Plan.Linked, Plan.Sorted;
    var s := Init(p);
    forall n | n in s.results
      ensures n in Sequential(p, oracle, |p.order|) && s.results[n] == Sequential(p, oracle, |p.order|)[n]
    {
      SequentialFixpoint(p, oracle, n);
    }
  }

  lemma TracksStep(p: Plan, oracle: map<string, StepResult>, s: State, a: Action)
    requires IsOracle(p, oracle) && Tracks(p, oracle, s) && p.Closed()
    requires Enabled(p, s, a) && Follows(oracle, s, a)
    ensures Tracks(p, oracle, Apply(p, s, a))
  {
    hide Agrees, FlagAgrees, NoCarriedLaunch, Follows, Apply, Sequential, Inv, Enabled, Plan.Closed, DepsSucceeded;
    StepInv(p, s, a);
    NoCarriedFromInv(p, s, a);
    if a.Decide? {
      DecideReference(p, oracle, s, a.k);
    }
    var f := Sequential(p, oracle, |p.order|);
    AgreesStep(p, oracle, f, s, a);
    FlagStep(p, oracle, f, s, a);
  }

  lemma DecideReference(p: Plan, oracle: map<string, StepResult>, s: State, k: nat)
    requires IsOracle(p, oracle) && Tracks(p, oracle, s) && Enabled(p, s, Decide(k))
    ensures var n := s.gos[k].step; var f := Sequential(p, oracle, |p.order|);
            && n in oracle && n in f && n in p.deps
            && f[n] == if DepsSucceeded(p.deps[n], s.results) then oracle[n] else SkippedResult(n)
  {
    hide Sequential, PhaseAgrees, FlagAgrees;
    DecideAgrees(p, oracle, s, s.gos[k].step);
  }

  lemma {:induction false} RunTracks(p: Plan, oracle: map<string, StepResult>, run: seq<State>, x: nat)
    requires IsOracle(p, oracle) && p.Valid() && p.Closed() && x < |run|
    requires IsRunWith(p, oracle, run) && run[0] == Init(p)
    ensures Tracks(p, oracle, run[x])
  {
    hide Tracks;
    if x == 0 {
      InitTracks(p, oracle);
    } else {
      RunTracks(p, oracle, run, x - 1);
      assert NextWith(p, oracle, run[x - 1], run[x]);
      var a :| Enabled(p, run[x - 1], a) && Follows(oracle, run[x - 1], a) && run[x] == Apply(p, run[x - 1], a);
      TracksStep(p, oracle, run[x - 1], a);
    }
  }

  /** Every complete run ends with the sequential results, whatever its interleaving. */
  lemma ScheduleIndependence(p: Plan, oracle: map<string, StepResult>, run: seq<State>)
    requires IsOracle(p, oracle) && p.Valid() && p.Closed()
    requires IsRunWith(p, oracle, run) && run[0] == Init(p) && run[|run| - 1].Final(p)
    ensures var s := run[|run| - 1];
            && s.results == Sequential(p, oracle, |p.order|)
            && !s.canceled
            && (s.failed <==> exists n :: n in s.results && n !in p.carry && s.results[n].status == Failed)
  {
    hide Sequential, Inv, PhaseAgrees, NoCarriedLaunch, Plan.Keyed, Plan.Linked, Plan.Sorted, Plan.Closed, Apply, Next;
    var s := run[|run| - 1];
    var f := Sequential(p, oracle, |p.order|);
    RunTracks(p, oracle, run, |run| - 1);
    FinalHasAllResults(p, s);
    SequentialKeys(p, oracle, |p.order|);
    SameKeys(p, f);
    assert s.results.Keys == f.Keys;
  }

  lemma SameKeys(p: Plan, f: map<string, StepResult>)
    requires p.Valid() && forall n :: n in f <==> exists i :: 0 <= i < |p.order| && p.order[i] == n
    ensures f.Keys == p.pos.Keys
  {
    forall n | n in p.pos ensures n in f {
      assert p.order[p.pos[n]] == n;
    }
  }

  /** Two complete runs of the same plan and outcomes end alike. */
  lemma RunsAgree(p: Plan, oracle: map<string, StepResult>, run1: seq<State>, run2: seq<State>)
    requires IsOracle(p, oracle) && p.Valid() && p.Closed()
    requires IsRunWith(p, oracle, run1) && run1[0] == Init(p) && run1[|run1| - 1].Final(p)
    requires IsRunWith(p, oracle, run2) && run2[0] == Init(p) && run2[|run2| - 1].Final(p)
    ensures run1[|run1| - 1].results == run2[|run2| - 1].results
    ensures run1[|run1| - 1].failed == run2[|run2| - 1].failed
  {
    ScheduleIndependence(p, oracle, run1);
    ScheduleIndependence(p, oracle, run2);
  }

  // ---------------------------------------------------------------- when carried steps are relaunched

  lemma {:induction false} ClosedMeansNoCarriedLaunch(p: Plan, run: seq<State>, x: nat)
    requires p.Valid() && p.Closed() && IsRun(p, run) && run[0] == Init(p) && x < |run|
    ensures NoCarriedLaunch(p, run[x]) && Inv(p, run[x])
  {
    hide Inv, NoCarriedLaunch;
    if x == 0 {
      InitInv(p);
      InitNoCarried(p);
    } else {
      ClosedMeansNoCarriedLaunch(p, run, x - 1);
      assert Next(p, run[x - 1], run[x]);
      var a :| Enabled(p, run[x - 1], a) && run[x] == Apply(p, run[x - 1], a);
      StepInv(p, run[x - 1], a);
      StepEffect(p, run[x - 1], a);
      NoCarriedFromInv(p, run[x - 1], a);
    }
  }

  lemma InitNoCarried(p: Plan)
    ensures NoCarriedLaunch(p, Init(p))
  {
  }

  lemma NoCarriedFromInv(p: Plan, s: State, a: Action)
    requires Inv(p, s) && p.Closed() && NoCarriedLaunch(p, s) && Enabled(p, s, a)
    ensures NoCarriedLaunch(p, Apply(p, s, a))
  {
    hide NoCarriedLaunch, Apply, Enabled;
    StepEffect(p, s, a);
    NoCarriedStep(p, s, a, Apply(p, s, a));
  }

  /**
   A complete run relaunches some carried step exactly when the carried set is not closed under
   dependencies, whatever the outcomes, cancellations and interleaving.
   */
  lemma CarriedRelaunchedIff(p: Plan, run: seq<State>)
    requires p.Valid() && IsRun(p, run) && run[0] == Init(p) && run[|run| - 1].Final(p)
    ensures var s := run[|run| - 1];
            (exists k :: 0 <= k < |s.gos| && s.gos[k].step in p.carry) <==> !p.Closed()
  {
    hide Inv;
    var s := run[|run| - 1];
    if p.Closed() {
      ClosedMeansNoCarriedLaunch(p, run, |run| - 1);
    } else {
      var n, d :| n in p.pos && n in p.carry && d in p.deps[n] && d !in p.carry;
      InitInv(p);
      RunInv(p, run, |run| - 1);
      FinalLaunched(p, s, n);
    }
  }

  lemma FinalLaunched(p: Plan, s: State, n: string)
    requires Inv(p, s) && s.Final(p) && HasFreshDep(p, n)
    ensures exists k :: 0 <= k < |s.gos| && s.gos[k].step == n
  {
    FinalHasAllResults(p, s);
    FreshLaunched(p, s, n);
  }

  lemma FreshLaunched(p: Plan, s: State, n: string)
    requires p.Keyed() && p.Sorted() && CoveredByLast(p, s) && s.Final(p) && HasFreshDep(p, n) && s.results.Keys == p.pos.Keys
    ensures exists k :: 0 <= k < |s.gos| && s.gos[k].step == n
  {
    assert DepsSet(p.deps[n], s.results);
    assert s.Launched(n);
    var k :| 0 <= k < |s.gos| && (s.gos[k].step == n || n in s.gos[k].Pending());
    assert s.gos[k].phase == Done;
  }
}
