/**
 The concurrent step scheduler, as a transition system.

 Every launched step is a goroutine: it waits for a semaphore slot, decides under the lock whether
 to skip, runs or is canceled, records its result under the lock, launches the children that have
 become ready one at a time, and gives its slot back. Meanwhile the sweep walks the declared steps
 and launches the ready ones, reading the shared statuses without the lock, one dependency at a
 time. A run is any interleaving of these transitions; cancellation of the context and the outcome
 of a running step are left to the environment.

 Goroutines that are done stay in the state: the list of goroutines is the history of launches.
 */
module Scheduler {
  import opened Steps

  const MAX_PARALLEL_STEPS := 8

  /** The maps built before scheduling starts, for steps listed in declaration order. */
  datatype Plan = Plan(
    listing: seq<string>,
    order: seq<string>,
    pos: map<string, nat>,
    deps: map<string, seq<string>>,
    children: map<string, seq<string>>,
    carry: map<string, StepResult>)
  {
    /** The maps are keyed by the declared steps. */
    ghost predicate Keyed() {
      && deps.Keys == pos.Keys && children.Keys == pos.Keys
      && (forall i :: 0 <= i < |listing| ==> listing[i] in pos)
    }

    /** `children` inverts `deps`. */
    ghost predicate Linked()
      requires Keyed()
    {
      && (forall d, c :: d in pos && c in children[d] ==> c in pos && d in deps[c])
      && (forall d, c :: d in pos && c in pos && d in deps[c] ==> c in children[d])
    }

    /** `order` and `pos` number the declared steps, dependencies first. */
    ghost predicate Sorted()
      requires Keyed()
    {
      && NoDup(listing)
      && |order| == |listing|
      && (forall n :: n in pos ==> n in listing)
      && (forall i :: 0 <= i < |order| ==> order[i] in pos && pos[order[i]] == i)
      && (forall n :: n in pos ==> pos[n] < |order| && order[pos[n]] == n)
      && (forall n, d :: n in pos && d in deps[n] ==> d in pos && pos[d] < pos[n])
    }

    ghost predicate Valid() {
      Keyed() && Linked() && Sorted()
    }

    /** A carried step only depends on carried steps. */
    ghost predicate Closed()
      requires Keyed()
    {
      forall n, d :: n in pos && n in carry && d in deps[n] ==> d in carry
    }

    /** The result a carried step is seeded with; an empty status reads as success. */
    function Seed(n: string): StepResult
      requires n in carry
    {
      var res := carry[n].(name := n);
      if res.status == Unset then res.(status := Success) else res
    }
  }

  datatype Phase =
    | Waiting
    | Holding
    | Cleared
    | Skipping
    | Canceling
    | Executing
    | Launching(ready: seq<string>)
    | Done

  datatype Goroutine = Go(step: string, phase: Phase)
  {
    predicate HoldsSlot() {
      phase != Waiting && phase != Done
    }

    /** Its result is recorded. */
    predicate Recorded() {
      phase.Launching? || phase == Done
    }

    /** Children it has found ready and not launched yet. */
    function Pending(): seq<string> {
      if phase.Launching? then phase.ready else []
    }
  }

  /** `i` and `j` are the sweep's position: declared step `i`, dependency `j`. */
  datatype State = State(
    gos: seq<Goroutine>,
    results: map<string, StepResult>,
    progress: map<string, StepResult>,
    failed: bool,
    canceled: bool,
    ctxDone: bool,
    i: nat,
    j: nat)
  {
    function At(k: nat, phase: Phase): State
      requires k < |gos|
    {
      this.(gos := gos[k := Go(gos[k].step, phase)])
    }

    function Spawn(n: string): State {
      this.(gos := gos + [Go(n, Waiting)])
    }

    ghost function SlotHolders(): set<nat> {
      set k: nat | k < |gos| && gos[k].HoldsSlot()
    }

    /** `n` has a goroutine, or some goroutine is about to launch it. */
    ghost predicate Launched(n: string) {
      exists k :: 0 <= k < |gos| && (gos[k].step == n || n in gos[k].Pending())
    }

    ghost predicate SweepOver(p: Plan) {
      i >= |p.listing|
    }

    /** The condition on which the scheduler returns: the sweep is over and every goroutine is done. */
    ghost predicate Final(p: Plan) {
      SweepOver(p) && forall k :: 0 <= k < |gos| ==> gos[k].phase == Done
    }
  }

  function PendingResult(n: string): StepResult { StepResult(n, Pending, 0, "") }

  function RunningResult(n: string): StepResult { StepResult(n, Running, 0, "") }

  function SkippedResult(n: string): StepResult { StepResult(n, Skipped, 0, "") }

  function CanceledResult(n: string): StepResult { StepResult(n, Canceled, 0, "canceled") }

  /** What running a step may yield: canceled only if the context is. */
  predicate RunOutcome(n: string, ctxDone: bool, res: StepResult) {
    res.name == n && (res.status == Success || res.status == Failed || (res.status == Canceled && ctxDone))
  }

  predicate DepsSet(deps: seq<string>, results: map<string, StepResult>) {
    forall d :: d in deps ==> d in results
  }

  predicate DepsSucceeded(deps: seq<string>, results: map<string, StepResult>) {
    forall d :: d in deps ==> d in results && results[d].status == Success
  }

  /** The children whose dependencies all have a status, in order. */
  function Ready(cs: seq<string>, deps: map<string, seq<string>>, results: map<string, StepResult>): seq<string>
    requires forall c :: c in cs ==> c in deps
  {
    if cs == [] then []
    else
      var last := |cs| - 1;
      assert cs[last] in cs;
      Ready(cs[..last], deps, results) + if DepsSet(deps[cs[last]], results) then [cs[last]] else []
  }

  function Init(p: Plan): State {
    var results := map n | n in p.pos && n in p.carry :: p.Seed(n);
    State([], results, map n | n in p.pos :: if n in p.carry then p.Seed(n) else PendingResult(n), false, false, false, 0, 0)
  }

  // ---------------------------------------------------------------- transitions

  datatype Action =
    | Acquire(k: nat)
    | Decide(k: nat)
    | Proceed(k: nat)
    | Finish(k: nat, res: StepResult)
    | LaunchChild(k: nat)
    | Release(k: nat)
    | Sweep
    | CancelContext

  ghost predicate Enabled(p: Plan, s: State, a: Action) {
    match a
    case Acquire(k) => k < |s.gos| && s.gos[k].phase == Waiting && |s.SlotHolders()| < MAX_PARALLEL_STEPS
    case Decide(k) => k < |s.gos| && s.gos[k].phase == Holding && s.gos[k].step in p.deps
    case Proceed(k) => k < |s.gos| && s.gos[k].phase == Cleared
    case Finish(k, res) =>
      && k < |s.gos| && s.gos[k].step in p.children
      && (forall c :: c in p.children[s.gos[k].step] ==> c in p.deps)
      && (match s.gos[k].phase
          case Skipping => res == SkippedResult(s.gos[k].step)
          case Canceling => res == CanceledResult(s.gos[k].step)
          case Executing => RunOutcome(s.gos[k].step, s.ctxDone, res)
          case _ => false)
    case LaunchChild(k) => k < |s.gos| && s.gos[k].phase.Launching? && s.gos[k].phase.ready != []
    case Release(k) => k < |s.gos| && s.gos[k].phase == Launching([])
    case Sweep => s.i < |p.listing| && p.listing[s.i] in p.deps
    case CancelContext => !s.ctxDone
  }

  function Apply(p: Plan, s: State, a: Action): State
    requires Enabled(p, s, a)
  {
    match a
    case Acquire(k) => s.At(k, Holding)
    case Decide(k) => s.At(k, if DepsSucceeded(p.deps[s.gos[k].step], s.results) then Cleared else Skipping)
    case Proceed(k) =>
      var n := s.gos[k].step;
      if s.ctxDone then s.At(k, Canceling)
      else s.At(k, Executing).(progress := s.progress[n := RunningResult(n)])
    case Finish(k, res) =>
      var n := s.gos[k].step;
      var results := s.results[n := res];
      s.At(k, Launching(Ready(p.children[n], p.deps, results)))
       .(results := results, progress := s.progress[n := res],
         failed := s.failed || res.status == Failed,
         canceled := s.canceled || res.status == Canceled)
    case LaunchChild(k) =>
      var ready := s.gos[k].phase.ready;
      s.At(k, Launching(ready[1..])).Spawn(ready[0])
    case Release(k) => s.At(k, Done)
    case Sweep =>
      var n := p.listing[s.i];
      if n in p.carry then s.(i := s.i + 1, j := 0)
      else if s.j < |p.deps[n]| then
        if p.deps[n][s.j] in s.results then s.(j := s.j + 1) else s.(i := s.i + 1, j := 0)
      else s.(i := s.i + 1, j := 0).Spawn(n)
    case CancelContext => s.(ctxDone := true)
  }

  ghost predicate Next(p: Plan, s: State, t: State) {
    exists a :: Enabled(p, s, a) && t == Apply(p, s, a)
  }

  /** A run: consecutive states are related by a transition. */
  ghost predicate IsRun(p: Plan, run: seq<State>) {
    run != [] && forall x :: 0 <= x < |run| - 1 ==> Next(p, run[x], run[x + 1])
  }

  ghost predicate Reachable(p: Plan, s: State) {
    exists run :: IsRun(p, run) && run[0] == Init(p) && run[|run| - 1] == s
  }

  lemma {:induction false} ReadyMember(cs: seq<string>, deps: map<string, seq<string>>, results: map<string, StepResult>)
    requires forall c :: c in cs ==> c in deps
    ensures forall c :: c in Ready(cs, deps, results) <==> c in cs && DepsSet(deps[c], results)
  {
    if cs != [] {
      var last := |cs| - 1;
      assert cs == cs[..last] + [cs[last]];
      ReadyMember(cs[..last], deps, results);
    }
  }

  /** A child that is ready is there once for each time it is listed. */
  lemma {:induction false} ReadyCount(cs: seq<string>, deps: map<string, seq<string>>, results: map<string, StepResult>, n: string)
    requires (forall c :: c in cs ==> c in deps) && n in deps && DepsSet(deps[n], results)
    ensures multiset(Ready(cs, deps, results))[n] == multiset(cs)[n]
  {
    if cs != [] {
      var last := |cs| - 1;
      assert cs == cs[..last] + [cs[last]];
      ReadyCount(cs[..last], deps, results, n);
    }
  }
}
