/**
 Retrying an execution. A retry carries over the successful steps of the attempt before it, and is sure to
 keep them exactly when they are closed under dependencies. They are when steps have fixed outcomes, when
 only leaves can be launched twice, and when no step was launched twice. Along a chain of retries of one
 workflow whose attempts leave closed successes, these never shrink and never change.
 */
module Retries {
  import opened Steps
  import opened Scheduler
  import opened SchedulerInvariant
  import opened SchedulerConfluence
  import opened SchedulerTermination
  import opened SchedulerOnce
  import opened SchedulerExplained
  import opened Outcome
  import opened SingleLaunch
  import opened RaceVerdict
  import opened RaceClosure
  import opened SeedLoss
  import opened Plans

  /** The successful results of an attempt, by name; a later entry replaces an earlier one. */
  function CarryOver(steps: seq<StepResult>): map<string, StepResult> {
    if steps == [] then map[]
    else
      var last := steps[|steps| - 1];
      var before := CarryOver(steps[..|steps| - 1]);
      if last.status == Success then before[last.name := last] else before
  }

  method CarryOverSteps(steps: seq<StepResult>) returns (carry: map<string, StepResult>)
    ensures carry == CarryOver(steps)
  {
    carry := map[];
    for i := 0 to |steps|
      invariant carry == CarryOver(steps[..i])
    {
      assert steps[..i + 1][..i] == steps[..i];
      if steps[i].status == Success {
        carry := carry[steps[i].name := steps[i]];
      }
    }
    assert steps[..|steps|] == steps;
  }

  /** With distinct names, the carried results are exactly the successful entries. */
  lemma {:induction false} CarryOverExact(v: seq<StepResult>)
    requires forall i, j :: 0 <= i < j < |v| ==> v[i].name != v[j].name
    ensures forall i :: 0 <= i < |v| && v[i].status == Success ==> v[i].name in CarryOver(v) && CarryOver(v)[v[i].name] == v[i]
    ensures forall n :: n in CarryOver(v) ==> exists i :: 0 <= i < |v| && v[i].name == n && v[i].status == Success
  {
    if v != [] {
      var last := |v| - 1;
      CarryOverExact(v[..last]);
      forall n | n in CarryOver(v) ensures exists i :: 0 <= i < |v| && v[i].name == n && v[i].status == Success {
        if n in CarryOver(v[..last]) {
          var i :| 0 <= i < last && v[..last][i].name == n && v[..last][i].status == Success;
          assert v[i].name == n;
        }
      }
      forall i | 0 <= i < |v| && v[i].status == Success ensures v[i].name in CarryOver(v) && CarryOver(v)[v[i].name] == v[i] {
        if i < last {
          assert v[..last][i] == v[i];
        }
      }
    }
  }

  /** The vector recorded when the steps cannot be ordered: retryable, and carrying nothing. */
  lemma RejectedCarriesNothing(error: string)
    ensures var v := [StepResult("workflow", Failed, 0, error)]; Retryable(v) && CarryOver(v) == map[]
  {
    var v := [StepResult("workflow", Failed, 0, error)];
    assert v[0].status == Failed;
    assert CarryOver(v[..0]) == map[];
  }

  // ---------------------------------------------------------------- the seed a final state leaves

  /** The end of an attempt that was soundly seeded. */
  ghost predicate Completed(p: Plan, s: State) {
    && p.Valid() && p.Closed() && CarriedSucceeded(p)
    && NamesKnown(p, s) && s.results.Keys == p.pos.Keys && CarriedKept(p, s)
  }

  /** The plan of the retry: the same steps, seeded with the successes of `s`. */
  function RetryPlan(p: Plan, s: State): Plan {
    p.(carry := CarryOver(Vector(p, s.results)))
  }

  /** The vector of a final state is named after the order. */
  lemma VectorNamed(p: Plan, results: map<string, StepResult>)
    requires p.Valid() && results.Keys == p.pos.Keys && forall n :: n in results ==> results[n].name == n
    ensures var v := Vector(p, results);
            && |v| == |p.order|
            && (forall i :: 0 <= i < |v| ==> v[i].name == p.order[i])
            && (forall i, j :: 0 <= i < j < |v| ==> v[i].name != v[j].name)
  {
    VectorCovers(p, results);
    forall i, j | 0 <= i < j < |p.order| ensures p.order[i] != p.order[j] {
      OrderDistinct(p, i, j);
    }
  }

  /** The seed is exactly the successes, each with its result unchanged. */
  lemma SeedIsSuccesses(p: Plan, s: State)
    requires p.Valid() && NamesKnown(p, s) && s.results.Keys == p.pos.Keys
    ensures var carry := RetryPlan(p, s).carry;
            && (forall n :: n in carry <==> n in s.results && s.results[n].status == Success)
            && (forall n :: n in carry ==> carry[n] == s.results[n] && RetryPlan(p, s).Seed(n) == s.results[n])
  {
    hide Plan.Linked;
    var v := Vector(p, s.results);
    var carry := CarryOver(v);
    VectorNamed(p, s.results);
    VectorCovers(p, s.results);
    CarryOverExact(v);
    forall n | n in carry ensures n in s.results && s.results[n].status == Success && carry[n] == s.results[n] && carry[n].name == n {
      var i :| 0 <= i < |v| && v[i].name == n && v[i].status == Success;
      assert v[i] == s.results[p.order[i]];
    }
    forall n | n in s.results && s.results[n].status == Success ensures n in carry {
      assert v[p.pos[n]] == s.results[n];
    }
  }

  /** The seed of the retry is closed exactly when the successes are. */
  lemma SeedClosedIff(p: Plan, s: State)
    requires p.Valid() && NamesKnown(p, s) && s.results.Keys == p.pos.Keys
    ensures RetryPlan(p, s).Valid() && (RetryPlan(p, s).Closed() <==> SuccessClosed(p, s.results))
    ensures CarriedSucceeded(RetryPlan(p, s))
  {
    hide Plan.Linked, Plan.Sorted, RetryPlan;
    var q := RetryPlan(p, s);
    SeedIsSuccesses(p, s);
    RetryShape(p, s);
    SameGraph(p, q);
    SameSuccesses(p, q, s.results);
  }

  lemma RetryShape(p: Plan, s: State)
    ensures RetryPlan(p, s) == p.(carry := RetryPlan(p, s).carry)
  {
    hide CarryOver;
  }

  lemma SameSuccesses(p: Plan, q: Plan, results: map<string, StepResult>)
    requires p.Keyed() && q.Keyed() && q == p.(carry := q.carry) && results.Keys == p.pos.Keys
    requires forall n :: n in q.carry <==> n in results && results[n].status == Success
    ensures q.Closed() <==> SuccessClosed(p, results)
  {
  }

  /** How an attempt may run for its successes to be closed, whatever else happens. */
  ghost predicate Steady(p: Plan, run: seq<State>) {
    || HasOracle(p, run)
    || DoublesAtLeaves(p)
    || LaunchesOnce(p, run)
  }

  /** Each step ran with one outcome, however often it ran, and nothing was canceled. */
  ghost predicate HasOracle(p: Plan, run: seq<State>) {
    exists oracle :: IsOracle(p, oracle) && IsRunWith(p, oracle, run)
  }

  lemma SteadyCloses(p: Plan, run: seq<State>)
    requires p.Valid() && p.Closed() && CarriedSucceeded(p) && IsCompleteRun(p, run) && Steady(p, run)
    ensures SuccessClosed(p, run[|run| - 1].results)
  {
    hide IsOracle, IsRunWith, IsRun, DoublesAtLeaves, LaunchesOnce, SuccessClosed, CarriedSucceeded, State.Final;
    if HasOracle(p, run) {
      var oracle :| IsOracle(p, oracle) && IsRunWith(p, oracle, run);
      FixedOutcomesClose(p, oracle, run);
    } else if LaunchesOnce(p, run) {
      SingleLaunchesClose(p, run);
    } else {
      LeafDoublesClose(p, run);
    }
  }

  lemma SingleLaunchesClose(p: Plan, run: seq<State>)
    requires p.Valid() && p.Closed() && CarriedSucceeded(p) && IsCompleteRun(p, run) && LaunchesOnce(p, run)
    ensures SuccessClosed(p, run[|run| - 1].results)
  {
    hide Agreed, LaunchesOnceBut, Plan.Linked, Plan.Sorted, IsRun, State.Final;
    RunAgreed(p, run, |run| - 1, {});
    AgreedCloses(p, run[|run| - 1]);
  }

  lemma CompletedRun(p: Plan, run: seq<State>)
    requires p.Valid() && p.Closed() && CarriedSucceeded(p) && IsCompleteRun(p, run)
    ensures Completed(p, run[|run| - 1])
  {
    hide Inv, NamesKnown, CarriedKept, CarriedSucceeded, Plan.Closed, Plan.Valid, IsRun, State.Final;
    FullRun(p, run);
    KeptRun(p, run, |run| - 1);
  }

  lemma FullRun(p: Plan, run: seq<State>)
    requires p.Valid() && IsCompleteRun(p, run)
    ensures NamesKnown(p, run[|run| - 1]) && run[|run| - 1].results.Keys == p.pos.Keys
  {
    hide Inv, NamesKnown, Plan.Valid, IsRun, State.Final;
    InitInv(p);
    RunInv(p, run, |run| - 1);
    FinalHasAllResults(p, run[|run| - 1]);
    InvParts(p, run[|run| - 1]);
  }

  /** The successes of an attempt that ran steadily are closed, so the retry is seeded soundly. */
  lemma SuccessesClosed(p: Plan, run: seq<State>)
    requires p.Valid() && p.Closed() && CarriedSucceeded(p) && IsCompleteRun(p, run) && Steady(p, run)
    ensures SuccessClosed(p, run[|run| - 1].results)
    ensures var q := RetryPlan(p, run[|run| - 1]); q.Valid() && q.Closed() && CarriedSucceeded(q)
  {
    hide Steady, SuccessClosed, CarriedSucceeded, Plan.Closed, Plan.Valid, IsRun, State.Final, RetryPlan;
    SteadyCloses(p, run);
    CompletedRun(p, run);
    CompletedSeeds(p, run[|run| - 1]);
  }

  lemma CompletedSeeds(p: Plan, s: State)
    requires Completed(p, s) && SuccessClosed(p, s.results)
    ensures var q := RetryPlan(p, s); q.Valid() && q.Closed() && CarriedSucceeded(q)
  {
    hide SuccessClosed, CarriedSucceeded, Plan.Closed, Plan.Valid, RetryPlan, NamesKnown, CarriedKept;
    SeedClosedIff(p, s);
  }

  /**
   Whatever the outcomes, every attempt that was soundly seeded seeds its retry soundly exactly when only
   leaves can be launched twice.
   */
  lemma SoundSeedIff(p: Plan)
    requires p.Valid() && p.Closed() && CarriedSucceeded(p)
    ensures (forall run: seq<State> :: IsCompleteRun(p, run) ==> SeedsSoundly(p, run)) <==> DoublesAtLeaves(p)
  {
    hide SuccessClosed, CarriedSucceeded, Plan.Closed, Plan.Valid, IsRun, State.Final, DoublesAtLeaves, SeedsSoundly;
    ClosesIff(p);
    forall run: seq<State> | IsCompleteRun(p, run) ensures SeedsSoundly(p, run) <==> SuccessClosed(p, run[|run| - 1].results) {
      SoundMeansClosed(p, run);
    }
    if forall run: seq<State> :: IsCompleteRun(p, run) ==> SeedsSoundly(p, run) {
      assert AlwaysCloses(p);
    }
  }

  ghost predicate SeedsSoundly(p: Plan, run: seq<State>)
    requires IsCompleteRun(p, run)
  {
    RetryPlan(p, run[|run| - 1]).Keyed() && RetryPlan(p, run[|run| - 1]).Closed()
  }

  lemma SoundMeansClosed(p: Plan, run: seq<State>)
    requires p.Valid() && IsCompleteRun(p, run)
    ensures SeedsSoundly(p, run) <==> SuccessClosed(p, run[|run| - 1].results)
  {
    hide NamesKnown, SuccessClosed, Plan.Closed, Plan.Valid, IsRun, State.Final, RetryPlan;
    FullRun(p, run);
    SeedClosedIff(p, run[|run| - 1]);
    ValidKeyed(RetryPlan(p, run[|run| - 1]));
  }

  /** The successes of `s` are still there at the end of `run`, with their results unchanged. */
  ghost predicate KeepsAll(s: State, run: seq<State>)
    requires run != []
  {
    forall n :: n in s.results && s.results[n].status == Success ==>
      n in run[|run| - 1].results && run[|run| - 1].results[n] == s.results[n]
  }

  /** Every complete run of a retry keeps every success of its parent exactly when these are closed. */
  lemma RetryKeepsIff(p: Plan, s: State)
    requires p.Valid() && NamesKnown(p, s) && s.results.Keys == p.pos.Keys
    ensures (forall run: seq<State> :: IsCompleteRun(RetryPlan(p, s), run) ==> KeepsAll(s, run)) <==> SuccessClosed(p, s.results)
  {
    hide IsRun, State.Final, Plan.Closed, Plan.Valid, RetryPlan, SuccessClosed, CarriedKept, CarriedSucceeded, NamesKnown, KeepsAll;
    var q := RetryPlan(p, s);
    SeedClosedIff(p, s);
    SeedKeptIff(q);
    forall run: seq<State> | IsCompleteRun(q, run) ensures KeepsAll(s, run) <==> CarriedKept(q, run[|run| - 1]) {
      KeepsMeansKept(p, s, run);
    }
    if forall run: seq<State> :: IsCompleteRun(q, run) ==> KeepsAll(s, run) {
      assert AlwaysKept(q);
    }
  }

  lemma KeepsMeansKept(p: Plan, s: State, run: seq<State>)
    requires p.Valid() && NamesKnown(p, s) && s.results.Keys == p.pos.Keys && run != []
    ensures KeepsAll(s, run) <==> CarriedKept(RetryPlan(p, s), run[|run| - 1])
  {
    hide NamesKnown, RetryPlan, Plan.Linked, Plan.Sorted;
    SeedIsSuccesses(p, s);
    RetryShape(p, s);
  }

  /** Only the seed differs, so the graph stays valid. */
  lemma SameGraph(p: Plan, q: Plan)
    requires p.Valid() && q == p.(carry := q.carry)
    ensures q.Valid()
  {
    hide Plan.Linked, Plan.Sorted;
    assert p == Plan(p.listing, p.order, p.pos, p.deps, p.children, p.carry);
    assert q == Plan(p.listing, p.order, p.pos, p.deps, p.children, q.carry);
    SameLinked(p.listing, p.order, p.pos, p.deps, p.children, p.carry, q.carry);
    SameSorted(p.listing, p.order, p.pos, p.deps, p.children, p.carry, q.carry);
  }

  lemma SameLinked(listing: seq<string>, order: seq<string>, pos: map<string, nat>, deps: map<string, seq<string>>,
                   children: map<string, seq<string>>, carry: map<string, StepResult>, seed: map<string, StepResult>)
    requires var p := Plan(listing, order, pos, deps, children, carry); p.Keyed() && p.Linked()
    ensures var q := Plan(listing, order, pos, deps, children, seed); q.Keyed() && q.Linked()
  {
  }

  lemma SameSorted(listing: seq<string>, order: seq<string>, pos: map<string, nat>, deps: map<string, seq<string>>,
                   children: map<string, seq<string>>, carry: map<string, StepResult>, seed: map<string, StepResult>)
    requires var p := Plan(listing, order, pos, deps, children, carry); p.Keyed() && p.Sorted()
    ensures var q := Plan(listing, order, pos, deps, children, seed); q.Keyed() && q.Sorted()
  {
  }

  // ---------------------------------------------------------------- chains of retries

  /** An attempt that reached its steps: the plan it started from, and its run up to the return. */
  datatype Attempt = Attempt(plan: Plan, run: seq<State>)
  {
    ghost predicate Finished() {
      IsCompleteRun(plan, run)
    }

    function Last(): State
      requires run != []
    {
      run[|run| - 1]
    }

    ghost predicate Retries(parent: Attempt) {
      parent.run != [] && plan == RetryPlan(parent.plan, parent.Last())
    }
  }

  /** Successive attempts of one workflow: the first one fresh, each of the others retrying the one before it. */
  ghost predicate IsChain(p: Plan, chain: seq<Attempt>) {
    && (forall k :: 0 <= k < |chain| ==> chain[k].Finished())
    && (|chain| > 0 ==> chain[0].plan == p.(carry := map[]))
    && (forall k :: 0 < k < |chain| ==> chain[k].Retries(chain[k - 1]))
  }

  /** Every attempt that was retried left closed successes. */
  ghost predicate ClosedChain(chain: seq<Attempt>) {
    forall k :: 0 <= k < |chain| - 1 ==> chain[k].run != [] && SuccessClosed(chain[k].plan, chain[k].Last().results)
  }

  ghost predicate SteadyChain(chain: seq<Attempt>) {
    forall k :: 0 <= k < |chain| ==> Steady(chain[k].plan, chain[k].run)
  }

  /** Attempts that ran steadily all leave closed successes. */
  lemma SteadyChainCloses(p: Plan, chain: seq<Attempt>)
    requires p.Valid() && IsChain(p, chain) && SteadyChain(chain)
    ensures ClosedChain(chain)
  {
    hide Plan.Valid, IsChain, SteadyChain, SuccessClosed;
    forall k | 0 <= k < |chain| - 1 ensures chain[k].run != [] && SuccessClosed(chain[k].plan, chain[k].Last().results) {
      SteadyAttempt(p, chain, k);
    }
  }

  lemma {:induction false} SteadyAttempt(p: Plan, chain: seq<Attempt>, k: nat)
    requires p.Valid() && k < |chain| && IsChain(p, chain) && SteadyChain(chain)
    ensures chain[k].run != [] && Completed(chain[k].plan, chain[k].Last()) && SuccessClosed(chain[k].plan, chain[k].Last().results)
  {
    hide Completed, Plan.Valid, Plan.Closed, CarriedSucceeded, RetryPlan, Steady, IsCompleteRun, Attempt.Finished, SuccessClosed;
    if k > 0 {
      SteadyAttempt(p, chain, k - 1);
    }
    AttemptSeeded(p, chain, k);
    assert chain[k].Finished();
    FinishedRun(chain[k]);
    CompletedRun(chain[k].plan, chain[k].run);
    SuccessesClosed(chain[k].plan, chain[k].run);
  }

  /** An attempt is soundly seeded when it is the first, or when the one before it left closed successes. */
  lemma AttemptSeeded(p: Plan, chain: seq<Attempt>, k: nat)
    requires p.Valid() && k < |chain| && IsChain(p, chain)
    requires k > 0 ==>
      && chain[k - 1].run != [] && Completed(chain[k - 1].plan, chain[k - 1].Last())
      && SuccessClosed(chain[k - 1].plan, chain[k - 1].Last().results)
    ensures var q := chain[k].plan; q.Valid() && q.Closed() && CarriedSucceeded(q)
  {
    hide Completed, Plan.Valid, Plan.Closed, CarriedSucceeded, RetryPlan, Attempt.Finished, SuccessClosed;
    if k == 0 {
      FreshPlanSound(p);
    } else {
      assert chain[k].Retries(chain[k - 1]);
      CompletedSeeds(chain[k - 1].plan, chain[k - 1].Last());
    }
  }

  lemma {:induction false} ChainCompleted(p: Plan, chain: seq<Attempt>, k: nat)
    requires p.Valid() && k < |chain| && IsChain(p, chain) && ClosedChain(chain)
    ensures chain[k].run != [] && Completed(chain[k].plan, chain[k].Last())
  {
    hide Completed, Plan.Valid, Plan.Closed, CarriedSucceeded, RetryPlan, IsCompleteRun, Attempt.Finished, SuccessClosed;
    if k > 0 {
      ChainCompleted(p, chain, k - 1);
    }
    AttemptSeeded(p, chain, k);
    assert chain[k].Finished();
    FinishedRun(chain[k]);
    CompletedRun(chain[k].plan, chain[k].run);
  }

  lemma FinishedRun(a: Attempt)
    requires a.Finished()
    ensures a.run != [] && IsCompleteRun(a.plan, a.run)
  {
    hide IsRun, State.Final;
  }

  lemma FreshPlanSound(p: Plan)
    requires p.Valid()
    ensures var q := p.(carry := map[]); q.Valid() && q.Closed() && CarriedSucceeded(q)
  {
    hide Plan.Valid;
    SameGraph(p, p.(carry := map[]));
    ValidKeyed(p.(carry := map[]));
  }

  lemma ValidKeyed(p: Plan)
    requires p.Valid()
    ensures p.Keyed()
  {
  }

  lemma CarriedThrough(p: Plan, s: State, q: Plan, t: State, n: string)
    requires Completed(p, s) && q == RetryPlan(p, s) && Completed(q, t)
    requires n in s.results && s.results[n].status == Success
    ensures n in t.results && t.results[n] == s.results[n]
  {
    hide Plan.Linked, Plan.Sorted;
    SeedIsSuccesses(p, s);
    assert n in q.pos && n in q.carry;
  }

  /** One retry keeps every success, with its result unchanged. */
  lemma RetryKeepsSuccesses(p: Plan, chain: seq<Attempt>, k: nat, n: string)
    requires p.Valid() && k + 1 < |chain| && IsChain(p, chain) && ClosedChain(chain)
    requires chain[k].run != [] && chain[k + 1].run != []
    requires n in chain[k].Last().results && chain[k].Last().results[n].status == Success
    ensures n in chain[k + 1].Last().results && chain[k + 1].Last().results[n] == chain[k].Last().results[n]
  {
    hide Completed, Plan.Valid, RetryPlan, ClosedChain, Attempt.Finished;
    ChainCompleted(p, chain, k);
    ChainCompleted(p, chain, k + 1);
    assert chain[k + 1].Retries(chain[k]);
    CarriedThrough(chain[k].plan, chain[k].Last(), chain[k + 1].plan, chain[k + 1].Last(), n);
  }

  /** Along any such chain of retries of one workflow, successes accumulate and their results stay as they were. */
  lemma {:induction false} SuccessesNeverShrink(p: Plan, chain: seq<Attempt>, j: nat, k: nat, n: string)
    requires p.Valid() && j <= k < |chain| && IsChain(p, chain) && ClosedChain(chain)
    requires chain[j].run != [] && chain[k].run != []
    requires n in chain[j].Last().results && chain[j].Last().results[n].status == Success
    ensures n in chain[k].Last().results && chain[k].Last().results[n] == chain[j].Last().results[n]
  {
    hide Completed, Plan.Valid, RetryPlan, ClosedChain, IsChain;
    if j < k {
      ChainCompleted(p, chain, k - 1);
      SuccessesNeverShrink(p, chain, j, k - 1, n);
      RetryKeepsSuccesses(p, chain, k - 1, n);
    }
  }

  /** The order never changes along the chain. */
  lemma {:induction false} SameOrder(p: Plan, chain: seq<Attempt>, k: nat)
    requires k < |chain| && IsChain(p, chain)
    ensures chain[k].plan.order == p.order && chain[k].plan.pos == p.pos
  {
    hide Attempt.Finished, CarryOver;
    if k > 0 {
      SameOrder(p, chain, k - 1);
      assert chain[k].Retries(chain[k - 1]);
    }
  }

  /** Each carried result also keeps its position in the persisted vector of every later attempt. */
  lemma SuccessesKeepPosition(p: Plan, chain: seq<Attempt>, j: nat, k: nat, n: string)
    requires p.Valid() && j <= k < |chain| && IsChain(p, chain) && ClosedChain(chain)
    requires chain[j].run != [] && chain[k].run != []
    requires n in p.pos && n in chain[j].Last().results && chain[j].Last().results[n].status == Success
    ensures var before := Vector(chain[j].plan, chain[j].Last().results);
            var after := Vector(chain[k].plan, chain[k].Last().results);
            p.pos[n] < |before| == |after| && before[p.pos[n]] == after[p.pos[n]] == chain[j].Last().results[n]
  {
    hide RetryPlan, ClosedChain, IsChain, Plan.Linked;
    SuccessesNeverShrink(p, chain, j, k, n);
    SameOrder(p, chain, j);
    SameOrder(p, chain, k);
    assert p.order[p.pos[n]] == n;
  }

  // ---------------------------------------------------------------- positions agree

  /** The plan persisted before the image is built: carried results, and pending entries. */
  function Planned(p: Plan): seq<StepResult> {
    seq(|p.order|, i requires 0 <= i < |p.order| =>
      if p.order[i] in p.carry then p.carry[p.order[i]] else PendingResult(p.order[i]))
  }

  /** The plan shows carried results at their positions, and everything else as pending. */
  lemma PlannedMeans(p: Plan, i: nat)
    requires i < |p.order|
    ensures |Planned(p)| == |p.order|
    ensures p.order[i] in p.carry ==> Planned(p)[i] == p.carry[p.order[i]]
    ensures p.order[i] !in p.carry ==> Planned(p)[i] == StepResult(p.order[i], Pending, 0, "")
  {
  }

  /** The plan of a retry shows the successes of its parent, and nothing else of it. */
  lemma RetryPlanned(p: Plan, s: State, i: nat)
    requires p.Valid() && NamesKnown(p, s) && s.results.Keys == p.pos.Keys && i < |p.order|
    ensures var n := p.order[i]; var shown := Planned(RetryPlan(p, s))[i];
            && n in s.results
            && (s.results[n].status == Success ==> shown == s.results[n])
            && (s.results[n].status != Success ==> shown == StepResult(n, Pending, 0, ""))
  {
    hide RetryPlan, Planned, Plan.Linked;
    SeedIsSuccesses(p, s);
    RetryShape(p, s);
    PlannedMeans(RetryPlan(p, s), i);
  }

  /**
   Whatever vector is persisted for an attempt - the plan, any snapshot of the progress, or the final
   results - a lookup by name yields the index the step's log and artifacts are stored under.
   */
  lemma IndexAgreement(p: Plan, s: State, n: string)
    requires Inv(p, s) && n in p.pos
    requires forall m :: m in p.carry ==> p.carry[m].name == m
    ensures FirstNamed(Planned(p), n) == p.pos[n]
    ensures FirstNamed(Vector(p, s.progress), n) == p.pos[n]
    ensures s.Final(p) ==> FirstNamed(Vector(p, s.results), n) == p.pos[n]
  {
    hide Plan.Valid, NamesKnown, ProgressKnown, LaunchedAfterDeps, SweepInv, Covered, ResultsJustified, SlotsBounded, State.Final;
    LookupFindsPosition(p, Planned(p), n);
    assert ProgressKnown(p, s);
    VectorLookup(p, s.progress, n) by {
      ProgressNamed(p, s);
    }
    if s.Final(p) {
      FinalHasAllResults(p, s);
      VectorLookup(p, s.results, n) by {
        ResultsNamed(p, s);
      }
    }
  }

  lemma ProgressNamed(p: Plan, s: State)
    requires ProgressKnown(p, s)
    ensures s.progress.Keys == p.pos.Keys && forall m :: m in s.progress ==> s.progress[m].name == m
  {
  }

  lemma ResultsNamed(p: Plan, s: State)
    requires NamesKnown(p, s)
    ensures forall m :: m in s.results ==> s.results[m].name == m
  {
  }

  lemma VectorLookup(p: Plan, results: map<string, StepResult>, n: string)
    requires p.Valid() && n in p.pos
    requires results.Keys == p.pos.Keys && forall m :: m in results ==> results[m].name == m
    ensures FirstNamed(Vector(p, results), n) == p.pos[n]
  {
    hide Plan.Linked;
    VectorNamed(p, results);
    LookupFindsPosition(p, Vector(p, results), n);
  }

  /**
   The log copied for a carried step is the one its parent attempt wrote: the lookup in the parent's
   vector yields the parent's position of the step, whatever the order of the retry.
   */
  lemma CopiedLogIsParents(parent: Plan, s: State, n: string)
    requires Inv(parent, s) && s.Final(parent) && n in CarryOver(Vector(parent, s.results))
    ensures n in parent.pos && FirstNamed(Vector(parent, s.results), n) == parent.pos[n]
    ensures FirstNamed(Vector(parent, s.results), n) < |Vector(parent, s.results)|
  {
    hide LaunchedAfterDeps, SweepInv, ResultsJustified, SlotsBounded, Plan.Linked;
    FinalHasAllResults(parent, s);
    SeedIsSuccesses(parent, s);
    VectorNamed(parent, s.results);
    LookupFindsPosition(parent, Vector(parent, s.results), n);
  }
}
