/** The plan built from a workflow's steps, and the positions its results are looked up by. */
module Plans {
  import opened Steps
  import opened OrderSteps
  import opened OrderCorrect
  import opened Scheduler
  import opened SchedulerOnce
  import opened SweepRace

  function Listing(steps: seq<Step>): seq<string> {
    seq(|steps|, i requires 0 <= i < |steps| => steps[i].name)
  }

  function Positions(order: seq<string>, k: nat): map<string, nat>
    requires k <= |order|
  {
    if k == 0 then map[] else Positions(order, k - 1)[order[k - 1] := k - 1]
  }

  function MakePlan(steps: seq<Step>, order: seq<string>, carry: map<string, StepResult>): Plan {
    Plan(Listing(steps), order, Positions(order, |order|),
         map n | n in Names(steps) :: Deps(steps, n),
         map n | n in Names(steps) :: Children(steps, n),
         carry)
  }

  lemma {:induction false} PositionsOf(order: seq<string>, k: nat)
    requires k <= |order| && NoDup(order)
    ensures forall i :: 0 <= i < k ==> order[i] in Positions(order, k) && Positions(order, k)[order[i]] == i
    ensures forall n :: n in Positions(order, k) ==> Positions(order, k)[n] < k && order[Positions(order, k)[n]] == n
  {
    if k > 0 {
      PositionsOf(order, k - 1);
    }
  }

  /** Ordering the steps yields everything the scheduler relies on. */
  lemma MakePlanValid(steps: seq<Step>, order: seq<string>, carry: map<string, StepResult>)
    requires UniqueNames(steps) && IsOrder(steps, order)
    ensures MakePlan(steps, order, carry).Valid()
  {
    hide Plan.Keyed, Plan.Linked, Plan.Sorted;
    var p := MakePlan(steps, order, carry);
    PlanKeyed(steps, order, carry);
    PlanLinked(steps, order, carry);
    PlanSorted(steps, order, carry);
  }

  /** What the plan holds for each declared step: its name at its index, its dependencies as declared, its position. */
  lemma PlanShows(steps: seq<Step>, order: seq<string>, carry: map<string, StepResult>, i: nat)
    requires UniqueNames(steps) && IsOrder(steps, order) && i < |steps|
    ensures var p := MakePlan(steps, order, carry); var n := steps[i].name;
            && |p.listing| == |steps| && p.listing[i] == n && p.carry == carry && p.order == order
            && n in p.deps && p.deps[n] == steps[i].dependsOn
            && n in p.pos && p.pos[n] < |order| && order[p.pos[n]] == n
  {
    hide Children;
    PositionsOf(order, |order|);
    assert steps[i] in steps;
    var n := steps[i].name;
    assert n in order;
    DepsOfStep(steps, i);
  }

  /** With unique names, looking a step up by name finds the step itself. */
  lemma {:induction false} DepsOfStep(steps: seq<Step>, i: nat)
    requires UniqueNames(steps) && i < |steps|
    ensures Deps(steps, steps[i].name) == steps[i].dependsOn
  {
    var last := |steps| - 1;
    if i < last {
      assert steps[i].name != steps[last].name;
      DepsOfStep(steps[..last], i);
    }
  }

  lemma PlanKeyed(steps: seq<Step>, order: seq<string>, carry: map<string, StepResult>)
    requires IsOrder(steps, order)
    ensures MakePlan(steps, order, carry).Keyed()
    ensures MakePlan(steps, order, carry).pos.Keys == Names(steps)
  {
    hide Deps, Children;
    var p := MakePlan(steps, order, carry);
    PositionsOf(order, |order|);
    forall n | n in p.pos ensures n in Names(steps) {
      assert order[p.pos[n]] == n && n in order;
    }
    forall n | n in Names(steps) ensures n in p.pos {
      assert n in order;
    }
    forall i | 0 <= i < |steps| ensures p.listing[i] in p.pos {
      assert steps[i] in steps;
    }
  }

  lemma PlanMaps(steps: seq<Step>, order: seq<string>, carry: map<string, StepResult>)
    ensures var p := MakePlan(steps, order, carry);
            && p.deps.Keys == Names(steps) && p.children.Keys == Names(steps)
            && (forall n :: n in Names(steps) ==> p.deps[n] == Deps(steps, n) && p.children[n] == Children(steps, n))
            && p.order == order && p.pos == Positions(order, |order|) && p.listing == Listing(steps)
  {
    hide Deps, Children;
  }

  lemma LinkFacts(steps: seq<Step>)
    requires UniqueNames(steps)
    ensures forall d, c :: d in Names(steps) && c in Children(steps, d) ==> c in Names(steps) && d in Deps(steps, c)
    ensures forall d, c :: d in Names(steps) && c in Names(steps) && d in Deps(steps, c) ==> c in Children(steps, d)
  {
    hide Deps, Children;
    forall d, c | d in Names(steps) && c in Children(steps, d) ensures c in Names(steps) && d in Deps(steps, c) {
      ChildrenAreNames(steps, d);
      ChildrenMember(steps, d, c);
    }
    forall d, c | d in Names(steps) && c in Names(steps) && d in Deps(steps, c) ensures c in Children(steps, d) {
      ChildrenMember(steps, d, c);
    }
  }

  lemma PlanLinked(steps: seq<Step>, order: seq<string>, carry: map<string, StepResult>)
    requires UniqueNames(steps) && IsOrder(steps, order)
    ensures MakePlan(steps, order, carry).Keyed() && MakePlan(steps, order, carry).Linked()
  {
    hide Deps, Children, Plan.Keyed, Plan.Linked, MakePlan, IsOrder, Names;
    PlanKeyed(steps, order, carry);
    PlanMaps(steps, order, carry);
    LinkFacts(steps);
    LinkedFrom(MakePlan(steps, order, carry), Names(steps), steps);
  }

  lemma LinkedFrom(p: Plan, names: set<string>, steps: seq<Step>)
    requires p.Keyed() && p.pos.Keys == names
    requires forall n :: n in names ==> p.deps[n] == Deps(steps, n) && p.children[n] == Children(steps, n)
    requires forall d, c :: d in names && c in Children(steps, d) ==> c in names && d in Deps(steps, c)
    requires forall d, c :: d in names && c in names && d in Deps(steps, c) ==> c in Children(steps, d)
    ensures p.Linked()
  {
    hide Deps, Children;
  }

  lemma ListingCovers(steps: seq<Step>)
    requires UniqueNames(steps)
    ensures NoDup(Listing(steps)) && |Listing(steps)| == |steps|
    ensures forall n :: n in Names(steps) ==> n in Listing(steps)
  {
    forall n | n in Names(steps) ensures n in Listing(steps) {
      var s :| s in steps && s.name == n;
      var i :| 0 <= i < |steps| && steps[i] == s;
      assert Listing(steps)[i] == n;
    }
  }

  /** Dependencies come at smaller positions. */
  lemma EdgesDescend(steps: seq<Step>, order: seq<string>, n: string, d: string)
    requires IsOrder(steps, order) && n in Positions(order, |order|) && d in Deps(steps, n)
    ensures var pos := Positions(order, |order|); d in pos && pos[d] < pos[n]
  {
    hide Deps, Positions;
    var pos := Positions(order, |order|);
    PositionsOf(order, |order|);
    DependencyEarlier(steps, order, pos[n], d);
    var j :| 0 <= j < pos[n] && order[j] == d;
  }

  lemma PlanSorted(steps: seq<Step>, order: seq<string>, carry: map<string, StepResult>)
    requires UniqueNames(steps) && IsOrder(steps, order)
    ensures MakePlan(steps, order, carry).Keyed() && MakePlan(steps, order, carry).Sorted()
  {
    hide Deps, Children, Positions, MakePlan, Plan.Keyed;
    var p := MakePlan(steps, order, carry);
    PlanKeyed(steps, order, carry);
    PlanMaps(steps, order, carry);
    PositionsOf(order, |order|);
    ListingCovers(steps);
    forall n, d | n in p.pos && d in p.deps[n] ensures d in p.pos && p.pos[d] < p.pos[n] {
      EdgesDescend(steps, order, n, d);
    }
  }

  lemma DependencyEarlier(steps: seq<Step>, order: seq<string>, i: nat, d: string)
    requires IsOrder(steps, order) && i < |order| && d in Deps(steps, order[i])
    ensures exists j :: 0 <= j < i && order[j] == d
  {
    hide Deps;
    assert d in order[..i];
    var j :| 0 <= j < |order[..i]| && order[..i][j] == d;
    assert order[j] == d;
  }

  lemma PlanDistinct(steps: seq<Step>, order: seq<string>, carry: map<string, StepResult>)
    requires UniqueNames(steps) && NoRepeatedDeps(steps)
    ensures ChildrenDistinct(MakePlan(steps, order, carry))
  {
    hide Deps, Children;
    forall n | n in Names(steps) ensures NoDup(Children(steps, n)) {
      ChildrenNoDup(steps, n);
    }
  }

  /** The plan of the order the algorithm computes is valid. */
  lemma ComputedPlanValid(steps: seq<Step>, carry: map<string, StepResult>)
    requires UniqueNames(steps) && Order(steps).Ordered?
    ensures MakePlan(steps, Order(steps).order, carry).Valid()
  {
    OrderIsCorrect(steps);
    MakePlanValid(steps, Order(steps).order, carry);
  }

  // ---------------------------------------------------------------- looking a step up in a vector

  /** The first entry with that name, or the length when there is none. */
  function FirstNamed(steps: seq<StepResult>, name: string): (i: nat)
    ensures i <= |steps|
    ensures i < |steps| ==> steps[i].name == name
    ensures forall j :: 0 <= j < i ==> steps[j].name != name
  {
    if steps == [] then 0
    else if steps[0].name == name then 0
    else
      assert forall j :: 0 < j < |steps| ==> steps[j] == steps[1..][j - 1];
      1 + FirstNamed(steps[1..], name)
  }

  /** The lookup behind the logs and artifacts of a step: its index, or -1. */
  method LookupStep(steps: seq<StepResult>, name: string) returns (index: int)
    ensures index == if FirstNamed(steps, name) < |steps| then FirstNamed(steps, name) else -1
  {
    for i := 0 to |steps|
      invariant forall j :: 0 <= j < i ==> steps[j].name != name
    {
      if steps[i].name == name {
        return i;
      }
    }
    return -1;
  }

  /** The lookup used to copy a carried step's log: its index in the parent, or 0. */
  method StepIndexByName(steps: seq<StepResult>, name: string) returns (index: nat)
    ensures index == if FirstNamed(steps, name) < |steps| then FirstNamed(steps, name) else 0
  {
    for i := 0 to |steps|
      invariant forall j :: 0 <= j < i ==> steps[j].name != name
    {
      if steps[i].name == name {
        return i;
      }
    }
    return 0;
  }

  method FindStep(steps: seq<Step>, name: string) returns (s: Step)
    ensures name in Names(steps) ==> s in steps && s.name == name
    ensures name in Names(steps) ==> exists i :: 0 <= i < |steps| && s == steps[i] && forall j :: 0 <= j < i ==> steps[j].name != name
    ensures name !in Names(steps) ==> s == Step("", [], 0)
  {
    for i := 0 to |steps|
      invariant forall j :: 0 <= j < i ==> steps[j].name != name
    {
      if steps[i].name == name {
        return steps[i];
      }
    }
    return Step("", [], 0);
  }

  /** In a vector named after the order, a lookup by name finds the position used for logs and artifacts. */
  lemma LookupFindsPosition(p: Plan, v: seq<StepResult>, n: string)
    requires p.Valid() && n in p.pos && |v| == |p.order|
    requires forall i :: 0 <= i < |v| ==> v[i].name == p.order[i]
    ensures FirstNamed(v, n) == p.pos[n]
  {
    hide Plan.Linked;
    assert v[p.pos[n]].name == n;
    var i := FirstNamed(v, n);
    assert p.order[i] == n;
  }
}
