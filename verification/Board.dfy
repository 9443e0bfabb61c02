/**
 The shared state of a run of the steps, in its own imperative form: one slot per position in the
 order for the result, the status and the progress of a step, and two flags. The methods are the
 critical sections a goroutine enters; each is the shared half of one transition of the scheduler.
 */
module Board {
  import opened Steps
  import opened OrderSteps
  import opened Scheduler
  import opened Plans
  import opened Outcome

  // ---------------------------------------------------------------- the maps built before scheduling

  method BuildPositions(order: seq<string>) returns (pos: map<string, nat>)
    ensures pos == Positions(order, |order|)
  {
    pos := map[];
    for i := 0 to |order|
      invariant pos == Positions(order, i)
    {
      pos := pos[order[i] := i];
    }
  }

  method AddChild(children0: map<string, seq<string>>, s: Step) returns (children: map<string, seq<string>>)
    ensures Extends(children, children0, s.name, s.dependsOn)
  {
    children := children0;
    ghost var read: seq<string> := [];
    for j := 0 to |s.dependsOn|
      invariant |read| == j && read <= s.dependsOn
      invariant Extends(children, children0, s.name, read)
    {
      var d := s.dependsOn[j];
      ExtendOne(children, children0, s.name, read, d);
      children := children[d := Get(children, d) + [s.name]];
      read := read + [d];
    }
    assert read == s.dependsOn;
  }

  /** Dependencies and children by name; a name without children has no entry. */
  method BuildLinks(steps: seq<Step>) returns (deps: map<string, seq<string>>, children: map<string, seq<string>>)
    ensures forall n :: Get(deps, n) == Deps(steps, n)
    ensures forall d :: Get(children, d) == Children(steps, d)
  {
    deps, children := map[], map[];
    for i := 0 to |steps|
      invariant forall n :: Get(deps, n) == Deps(steps[..i], n)
      invariant forall d :: Get(children, d) == Children(steps[..i], d)
    {
      assert steps[..i + 1][..i] == steps[..i];
      deps := deps[steps[i].name := steps[i].dependsOn];
      children := AddChild(children, steps[i]);
    }
    assert steps[..|steps|] == steps;
  }

  // ---------------------------------------------------------------- the board

  class Board {
    const plan: Plan
    const results: array<StepResult>
    const statuses: array<StepStatus>
    const progress: array<StepResult>
    var failed: bool
    var canceled: bool

    ghost predicate Valid()
    {
      && plan.Valid()
      && results.Length == |plan.order|
      && statuses.Length == |plan.order|
      && progress.Length == |plan.order|
      && results != progress
    }

    /** Slot `i` of the results and statuses holds the result recorded for `n`, if any. */
    ghost predicate ResultSlot(s: State, n: string, i: nat)
      requires Valid() && i < |plan.order|
      reads results, statuses
    {
      if n in s.results then
        results[i] == s.results[n] && statuses[i] == s.results[n].status && statuses[i] != Unset
      else statuses[i] == Unset
    }

    ghost predicate ShowsResults(s: State)
      requires Valid()
      reads results, statuses
    {
      forall i :: 0 <= i < |plan.order| ==> ResultSlot(s, plan.order[i], i)
    }

    ghost predicate ShowsProgress(s: State)
      requires Valid()
      reads progress
    {
      forall i :: 0 <= i < |plan.order| ==> plan.order[i] in s.progress && progress[i] == s.progress[plan.order[i]]
    }

    /** The board shows the shared half of `s`. */
    ghost predicate Shows(s: State)
      reads this, results, statuses, progress
    {
      Valid() && ShowsResults(s) && ShowsProgress(s) && failed == s.failed && canceled == s.canceled
    }

    /** A fresh board shows the initial state: carried results, and pending steps. */
    constructor (plan: Plan)
      requires plan.Valid()
      ensures this.plan == plan && fresh(results) && fresh(statuses) && fresh(progress)
      ensures Shows(Init(plan))
    {
      this.plan := plan;
      results := new StepResult[|plan.order|](_ => StepResult("", Unset, 0, ""));
      statuses := new StepStatus[|plan.order|](_ => Unset);
      progress := new StepResult[|plan.order|](i requires 0 <= i < |plan.order| => PendingResult(plan.order[i]));
      failed, canceled := false, false;
      new;
      Seed();
    }

    method Seed()
      requires Valid() && !failed && !canceled
      requires forall i :: 0 <= i < |plan.order| ==> statuses[i] == Unset
      requires forall i :: 0 <= i < |plan.order| ==> progress[i] == PendingResult(plan.order[i])
      modifies results, statuses, progress
      ensures Shows(Init(plan))
    {
      hide Plan.Valid;
      for i := 0 to |plan.order|
        invariant forall k :: 0 <= k < i ==> ResultSlot(Init(plan), plan.order[k], k)
        invariant forall k :: 0 <= k < i ==> plan.order[k] in Init(plan).progress && progress[k] == Init(plan).progress[plan.order[k]]
        invariant forall k :: i <= k < |plan.order| ==> statuses[k] == Unset && progress[k] == PendingResult(plan.order[k])
      {
        var n := plan.order[i];
        OrderInPos(plan, i);
        if n in plan.carry {
          var res := plan.Seed(n);
          results[i] := res;
          statuses[i] := res.status;
          progress[i] := res;
        }
      }
    }

    /** The decision of a launched step: skip unless every dependency succeeded. */
    method MustSkip(name: string, ghost s: State, ghost k: nat) returns (skip: bool)
      requires Shows(s) && Enabled(plan, s, Decide(k)) && name == s.gos[k].step && name in plan.pos
      ensures Apply(plan, s, Decide(k)) == s.At(k, if skip then Skipping else Cleared)
    {
      hide Plan.Valid, Plan.Keyed, Plan.Linked, Plan.Sorted;
      var deps := plan.deps[name];
      skip := false;
      for j := 0 to |deps|
        invariant forall x :: 0 <= x < j ==> deps[x] in s.results && s.results[deps[x]].status == Success
      {
        var i := DepPos(plan, name, j);
        assert ResultSlot(s, plan.order[i], i);
        if statuses[i] != Success {
          return true;
        }
      }
    }

    /** Whether every dependency has a status, as the sweep and a completing parent ask. */
    method AllDone(name: string, ghost s: State) returns (done: bool)
      requires Valid() && ShowsResults(s) && name in plan.pos && name in plan.deps
      ensures done <==> DepsSet(plan.deps[name], s.results)
    {
      hide Plan.Valid, Plan.Keyed, Plan.Linked, Plan.Sorted;
      var deps := plan.deps[name];
      for j := 0 to |deps|
        invariant forall x :: 0 <= x < j ==> deps[x] in s.results
      {
        var i := DepPos(plan, name, j);
        assert ResultSlot(s, plan.order[i], i);
        if statuses[i] == Unset {
          return false;
        }
      }
      return true;
    }

    /** A cleared step shows as running when the context is still live. */
    method MarkRunning(name: string, ghost s: State, ghost k: nat)
      requires Shows(s) && Enabled(plan, s, Proceed(k)) && name == s.gos[k].step && name in plan.pos && !s.ctxDone
      modifies progress
      ensures Shows(Apply(plan, s, Proceed(k)))
    {
      hide Plan.Linked;
      progress[plan.pos[name]] := RunningResult(name);
    }

    /** Stores a result, its status and its progress under the step's position. */
    method Record(name: string, res: StepResult, ghost s: State, ghost t: State)
      requires Valid() && ShowsResults(s) && ShowsProgress(s) && name in plan.pos && res.status != Unset
      requires t.results == s.results[name := res] && t.progress == s.progress[name := res]
      modifies results, statuses, progress
      ensures ShowsResults(t) && ShowsProgress(t)
    {
      hide Plan.Linked;
      var i := plan.pos[name];
      results[i] := res;
      statuses[i] := res.status;
      progress[i] := res;
      forall x | 0 <= x < |plan.order| ensures ResultSlot(t, plan.order[x], x) {
        if x != i {
          assert old(ResultSlot(s, plan.order[x], x));
        }
      }
    }

    /** The completion of a step: its result, the flags, and the children that have become ready. */
    method Complete(name: string, res: StepResult, ghost s: State, ghost k: nat) returns (ready: seq<string>)
      requires Shows(s) && Enabled(plan, s, Finish(k, res)) && name == s.gos[k].step && name in plan.pos
      modifies this, results, statuses, progress
      ensures Shows(Apply(plan, s, Finish(k, res)))
      ensures Apply(plan, s, Finish(k, res)).gos[k] == Go(name, Launching(ready))
    {
      hide Plan.Keyed, Plan.Linked, Plan.Sorted, Ready, Apply, Enabled, ShowsResults, ShowsProgress;
      FinishShared(plan, s, k, res);
      ghost var t := Apply(plan, s, Finish(k, res));
      Record(name, res, s, t);
      if res.status == Failed {
        failed := true;
      }
      if res.status == Canceled {
        canceled := true;
      }
      ready := ReadyChildren(name, t);
    }

    method ReadyChildren(name: string, ghost t: State) returns (ready: seq<string>)
      requires Valid() && ShowsResults(t) && name in plan.children
      requires forall c :: c in plan.children[name] ==> c in plan.deps
      ensures ready == Ready(plan.children[name], plan.deps, t.results)
    {
      hide Plan.Valid, Plan.Keyed, Plan.Linked, Plan.Sorted;
      var children := plan.children[name];
      ready := [];
      for x := 0 to |children|
        invariant ready == Ready(children[..x], plan.deps, t.results)
      {
        assert children[..x + 1][..x] == children[..x];
        assert children[x] in children;
        KeysAgree(plan);
        var allDone := AllDone(children[x], t);
        if allDone {
          ready := ready + [children[x]];
        }
      }
      assert children[..|children|] == children;
    }

    /** The vector handed back once every step has a result. */
    method Collect(ghost s: State) returns (out: seq<StepResult>)
      requires Valid() && ShowsResults(s) && s.results.Keys == plan.pos.Keys
      ensures out == Vector(plan, s.results)
    {
      hide Plan.Linked, Plan.Sorted, Plan.Keyed, ShowsResults, ResultSlot;
      out := [];
      for i := 0 to |plan.order|
        invariant |out| == i
        invariant forall x :: 0 <= x < i ==> plan.order[x] in s.results && out[x] == s.results[plan.order[x]]
      {
        SlotResult(s, i);
        out := out + [results[plan.pos[plan.order[i]]]];
      }
    }

    /** With a result for every step, each slot holds that of the step at its position. */
    lemma SlotResult(s: State, i: nat)
      requires Valid() && ShowsResults(s) && s.results.Keys == plan.pos.Keys && i < |plan.order|
      ensures plan.order[i] in s.results && plan.order[i] in plan.pos && plan.pos[plan.order[i]] == i
      ensures results[i] == s.results[plan.order[i]]
    {
      hide Plan.Linked;
      OrderInPos(plan, i);
      assert ResultSlot(s, plan.order[i], i);
    }
  }

  lemma OrderInPos(p: Plan, i: nat)
    requires p.Valid() && i < |p.order|
    ensures p.order[i] in p.pos
  {
  }

  lemma KeysAgree(p: Plan)
    requires p.Valid()
    ensures p.deps.Keys == p.pos.Keys
  {
  }

  lemma FinishShared(p: Plan, s: State, k: nat, res: StepResult)
    requires Enabled(p, s, Finish(k, res))
    ensures var n := s.gos[k].step;
            var t := Apply(p, s, Finish(k, res));
            && res.status != Unset
            && n in p.children && (forall c :: c in p.children[n] ==> c in p.deps)
            && t.results == s.results[n := res] && t.progress == s.progress[n := res]
            && t.failed == (s.failed || res.status == Failed)
            && t.canceled == (s.canceled || res.status == Canceled)
            && k < |t.gos| && t.gos[k] == Go(n, Launching(Ready(p.children[n], p.deps, t.results)))
  {
    hide Ready;
  }

  /** The slot of the `j`th dependency of `n`. */
  method DepPos(p: Plan, n: string, j: nat) returns (i: nat)
    requires p.Valid() && n in p.pos && n in p.deps && j < |p.deps[n]|
    ensures i < |p.order| && p.order[i] == p.deps[n][j]
  {
    assert p.deps[n][j] in p.deps[n];
    i := p.pos[p.deps[n][j]];
  }
}
