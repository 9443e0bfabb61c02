/**
 Ordering a workflow's steps: Kahn's algorithm over `depends_on`.

 `Order` is what the algorithm computes; `OrderSteps` is the algorithm itself, with its maps, queue
 and loops. The lemmas say what the order means: for unique names it exists exactly when every
 dependency is known and no cycle exists, and then it is a permutation with dependencies first.
 */
module OrderSteps {
  import opened Sequences
  import opened Steps

  datatype OrderError = UnknownDependency(step: string, dep: string) | CycleDetected

  datatype OrderResult = Ordered(order: seq<string>) | Rejected(error: OrderError)

  // ---------------------------------------------------------------- what the algorithm computes

  ghost predicate AllKnown(names: set<string>, deps: seq<string>) {
    forall j :: 0 <= j < |deps| ==> deps[j] in names
  }

  /** The first entry of `deps` outside `names`, if any. */
  function FirstUnknown(names: set<string>, deps: seq<string>): (r: seq<string>)
    ensures |r| <= 1
  {
    if deps == [] then []
    else
      var before := FirstUnknown(names, deps[..|deps| - 1]);
      if before != [] then before
      else if deps[|deps| - 1] in names then []
      else [deps[|deps| - 1]]
  }

  /** The first step, in declaration order, with an unknown dependency, and that dependency. */
  function FirstUnknownStep(names: set<string>, steps: seq<Step>): (r: seq<(string, string)>)
    ensures |r| <= 1
  {
    if steps == [] then []
    else
      var last := steps[|steps| - 1];
      var before := FirstUnknownStep(names, steps[..|steps| - 1]);
      if before != [] then before
      else
        var here := FirstUnknown(names, last.dependsOn);
        if here == [] then [] else [(last.name, here[0])]
  }

  lemma {:induction false} FirstUnknownNone(names: set<string>, deps: seq<string>)
    ensures FirstUnknown(names, deps) == [] <==> AllKnown(names, deps)
    ensures FirstUnknown(names, deps) != [] ==> FirstUnknown(names, deps)[0] in deps && FirstUnknown(names, deps)[0] !in names
  {
    if deps != [] {
      var last := |deps| - 1;
      FirstUnknownNone(names, deps[..last]);
      assert forall k :: 0 <= k < last ==> deps[..last][k] == deps[k];
    }
  }

  lemma {:induction false} FirstUnknownStepNone(names: set<string>, steps: seq<Step>)
    ensures FirstUnknownStep(names, steps) == [] <==>
            forall k :: 0 <= k < |steps| ==> AllKnown(names, steps[k].dependsOn)
    ensures FirstUnknownStep(names, steps) != [] ==>
              exists k :: 0 <= k < |steps| && FirstUnknownStep(names, steps)[0].0 == steps[k].name
                       && FirstUnknownStep(names, steps)[0].1 in steps[k].dependsOn
                       && FirstUnknownStep(names, steps)[0].1 !in names
  {
    if steps != [] {
      var last := |steps| - 1;
      FirstUnknownStepNone(names, steps[..last]);
      FirstUnknownNone(names, steps[last].dependsOn);
      assert forall k :: 0 <= k < last ==> steps[..last][k] == steps[k];
    }
  }

  function InDegrees(steps: seq<Step>): (deg: map<string, int>)
    ensures deg.Keys == Names(steps)
  {
    if steps == [] then map[]
    else
      var last := steps[|steps| - 1];
      assert steps == steps[..|steps| - 1] + [last];
      InDegrees(steps[..|steps| - 1])[last.name := |last.dependsOn|]
  }

  function Roots(steps: seq<Step>, deg: map<string, int>): seq<string>
    requires Names(steps) <= deg.Keys
  {
    if steps == [] then []
    else
      var last := steps[|steps| - 1];
      assert steps == steps[..|steps| - 1] + [last];
      Roots(steps[..|steps| - 1], deg) + if deg[last.name] == 0 then [last.name] else []
  }

  datatype Frontier = Frontier(deg: map<string, int>, queue: seq<string>)

  /** Lower the in-degree of every name in `ms`, queueing the names that reach zero. */
  function Relax(ms: seq<string>, f: Frontier): (r: Frontier)
    requires forall m :: m in ms ==> m in f.deg
    ensures r.deg.Keys == f.deg.Keys
    decreases |ms|
  {
    if ms == [] then f
    else
      var m := ms[0];
      var deg := f.deg[m := f.deg[m] - 1];
      var queue := if deg[m] == 0 then f.queue + [m] else f.queue;
      Relax(ms[1..], Frontier(deg, queue))
  }

  /** A name is queued only when it leaves the open set, so relaxing cannot go on forever. */
  lemma {:induction false} RelaxShrinks(ms: seq<string>, f: Frontier)
    requires forall m :: m in ms ==> m in f.deg
    ensures var r := Relax(ms, f); Open(r.deg) < Open(f.deg) || (Open(r.deg) <= Open(f.deg) && r.queue == f.queue)
    decreases |ms|
  {
    if ms != [] {
      var m := ms[0];
      var deg := f.deg[m := f.deg[m] - 1];
      assert deg[m] == 0 ==> m in Open(f.deg) && m !in Open(deg);
      assert Open(deg) <= Open(f.deg);
      RelaxShrinks(ms[1..], Frontier(deg, if deg[m] == 0 then f.queue + [m] else f.queue));
    }
  }

  lemma RelaxStep(ms: seq<string>, f: Frontier)
    requires ms != [] && forall m :: m in ms ==> m in f.deg
    ensures forall m :: m in ms[1..] ==> m in f.deg
    ensures var deg := f.deg[ms[0] := f.deg[ms[0]] - 1];
            Relax(ms, f) == Relax(ms[1..], Frontier(deg, if deg[ms[0]] == 0 then f.queue + [ms[0]] else f.queue))
  {
  }

  function Open(deg: map<string, int>): set<string> {
    set n | n in deg && deg[n] > 0
  }

  function Drain(steps: seq<Step>, f: Frontier, order: seq<string>): seq<string>
    requires Names(steps) <= f.deg.Keys
    decreases Open(f.deg), |f.queue|
  {
    if f.queue == [] then order
    else
      var n := f.queue[0];
      ChildrenAreNames(steps, n);
      RelaxShrinks(Children(steps, n), f.(queue := f.queue[1..]));
      var g := Relax(Children(steps, n), f.(queue := f.queue[1..]));
      Drain(steps, g, order + [n])
  }

  lemma DrainOne(steps: seq<Step>, f: Frontier, order: seq<string>, g: Frontier)
    requires Names(steps) <= f.deg.Keys && f.queue != []
    requires forall m :: m in Children(steps, f.queue[0]) ==> m in f.deg
    requires g == Relax(Children(steps, f.queue[0]), f.(queue := f.queue[1..]))
    ensures Names(steps) <= g.deg.Keys && Drain(steps, f, order) == Drain(steps, g, order + [f.queue[0]])
  {
  }

  lemma DrainNone(steps: seq<Step>, f: Frontier, order: seq<string>)
    requires Names(steps) <= f.deg.Keys && f.queue == []
    ensures Drain(steps, f, order) == order
  {
  }

  /** The outcome of ordering `steps`. */
  function Order(steps: seq<Step>): OrderResult {
    var unknown := FirstUnknownStep(Names(steps), steps);
    if unknown != [] then Rejected(UnknownDependency(unknown[0].0, unknown[0].1))
    else
      var deg := InDegrees(steps);
      var order := Drain(steps, Frontier(deg, Roots(steps, deg)), []);
      if |order| != |steps| then Rejected(CycleDetected) else Ordered(order)
  }

  lemma {:induction false} CopiesAreName(name: string, deps: seq<string>, d: string)
    ensures forall c :: c in Copies(name, deps, d) ==> c == name
  {
    if deps != [] {
      CopiesAreName(name, deps[..|deps| - 1], d);
    }
  }

  lemma {:induction false} ChildrenAreNames(steps: seq<Step>, d: string)
    ensures forall c :: c in Children(steps, d) ==> c in Names(steps)
  {
    if steps != [] {
      var last := |steps| - 1;
      ChildrenAreNames(steps[..last], d);
      CopiesAreName(steps[last].name, steps[last].dependsOn, d);
      assert steps == steps[..last] + [steps[last]];
    }
  }

  // ---------------------------------------------------------------- the algorithm

  function Get(m: map<string, seq<string>>, k: string): seq<string> {
    if k in m then m[k] else []
  }

  /** `adj` is `adj0` with one more entry `name` for each element of `deps`. */
  ghost predicate Extends(adj: map<string, seq<string>>, adj0: map<string, seq<string>>, name: string, deps: seq<string>) {
    forall d :: Get(adj, d) == Get(adj0, d) + Copies(name, deps, d)
  }

  lemma ExtendOne(adj: map<string, seq<string>>, adj0: map<string, seq<string>>, name: string, deps: seq<string>, d: string)
    requires Extends(adj, adj0, name, deps)
    ensures Extends(adj[d := Get(adj, d) + [name]], adj0, name, deps + [d])
  {
    forall e ensures Get(adj[d := Get(adj, d) + [name]], e) == Get(adj0, e) + Copies(name, deps + [d], e) {
      assert Get(adj, e) == Get(adj0, e) + Copies(name, deps, e);
      CopiesSnoc(name, deps, d, e);
      Assoc(Get(adj0, e), Copies(name, deps, e), [name]);
    }
  }

  lemma CopiesSnoc(name: string, deps: seq<string>, d: string, e: string)
    ensures Copies(name, deps + [d], e) == if d == e then Copies(name, deps, e) + [name] else Copies(name, deps, e)
  {
    assert (deps + [d])[..|deps|] == deps;
  }

  /** Adds one step's dependencies to the maps, stopping at the first unknown one. */
  method RecordStep(names: set<string>, s: Step, inDegree0: map<string, int>, adj0: map<string, seq<string>>)
    returns (unknown: seq<string>, inDegree: map<string, int>, adj: map<string, seq<string>>)
    ensures unknown == FirstUnknown(names, s.dependsOn)
    ensures unknown == [] ==> AllKnown(names, s.dependsOn)
    ensures unknown == [] ==> inDegree == inDegree0[s.name := |s.dependsOn|]
    ensures unknown == [] ==> Extends(adj, adj0, s.name, s.dependsOn)
  {
    adj := adj0;
    inDegree := inDegree0[s.name := 0];
    ghost var read: seq<string> := [];
    for j := 0 to |s.dependsOn|
      invariant |read| == j && read <= s.dependsOn
      invariant forall k :: 0 <= k < j ==> s.dependsOn[k] in names
      invariant inDegree == inDegree0[s.name := j]
      invariant Extends(adj, adj0, s.name, read)
    {
      var d := s.dependsOn[j];
      if d !in names {
        FirstUnknownIs(names, s.dependsOn, j);
        return [d], inDegree, adj;
      }
      ExtendOne(adj, adj0, s.name, read, d);
      adj := adj[d := Get(adj, d) + [s.name]];
      inDegree := inDegree[s.name := inDegree[s.name] + 1];
      read := read + [d];
    }
    assert read == s.dependsOn;
    FirstUnknownNone(names, s.dependsOn);
    unknown := [];
  }

  lemma NoGraph()
    ensures InDegrees([]) == map[] && forall d :: Children([], d) == []
  {
  }

  /** The graph of the steps up to the next one. */
  lemma GraphSnoc(steps: seq<Step>, i: nat, adj: map<string, seq<string>>, adj': map<string, seq<string>>)
    requires i < |steps| && (forall d :: Get(adj, d) == Children(steps[..i], d))
    requires Extends(adj', adj, steps[i].name, steps[i].dependsOn)
    ensures InDegrees(steps[..i + 1]) == InDegrees(steps[..i])[steps[i].name := |steps[i].dependsOn|]
    ensures forall d :: Get(adj', d) == Children(steps[..i + 1], d)
  {
    hide Copies;
    assert steps[..i + 1][..i] == steps[..i];
  }

  /** Records in-degrees and adjacency lists, stopping at the first unknown dependency. */
  method BuildGraph(steps: seq<Step>, names: set<string>)
    returns (unknown: seq<(string, string)>, inDegree: map<string, int>, adj: map<string, seq<string>>)
    requires names == Names(steps)
    ensures unknown == FirstUnknownStep(names, steps)
    ensures unknown == [] ==> inDegree == InDegrees(steps)
    ensures unknown == [] ==> forall d :: Get(adj, d) == Children(steps, d)
  {
    hide FirstUnknownStep, Names, Children, InDegrees, Extends;
    inDegree, adj := map[], map[];
    NoGraph();
    for i := 0 to |steps|
      invariant forall k :: 0 <= k < i ==> AllKnown(names, steps[k].dependsOn)
      invariant inDegree == InDegrees(steps[..i])
      invariant forall d :: Get(adj, d) == Children(steps[..i], d)
    {
      var s := steps[i];
      ghost var adj0 := adj;
      var missing: seq<string>;
      missing, inDegree, adj := RecordStep(names, s, inDegree, adj);
      if missing != [] {
        FirstUnknownStepIs(names, steps, i);
        return [(s.name, missing[0])], inDegree, adj;
      }
      GraphSnoc(steps, i, adj0, adj);
    }
    assert steps[..|steps|] == steps;
    FirstUnknownStepNone(names, steps);
    unknown := [];
  }

  method FindRoots(steps: seq<Step>, inDegree: map<string, int>) returns (queue: seq<string>)
    requires inDegree.Keys == Names(steps)
    ensures queue == Roots(steps, inDegree)
  {
    queue := [];
    for i := 0 to |steps|
      invariant Names(steps[..i]) <= inDegree.Keys
      invariant queue == Roots(steps[..i], inDegree)
    {
      assert steps[..i + 1][..i] == steps[..i];
      assert forall s :: s in steps[..i + 1] ==> s in steps;
      if inDegree[steps[i].name] == 0 {
        queue := queue + [steps[i].name];
      }
    }
    assert steps[..|steps|] == steps;
  }

  /** The inner loop: lower the in-degree of each child of the name just taken. */
  method RelaxChildren(ms: seq<string>, inDegree0: map<string, int>, queue0: seq<string>)
    returns (inDegree: map<string, int>, queue: seq<string>)
    requires forall m :: m in ms ==> m in inDegree0
    ensures Frontier(inDegree, queue) == Relax(ms, Frontier(inDegree0, queue0))
  {
    inDegree, queue := inDegree0, queue0;
    for k := 0 to |ms|
      invariant forall m :: m in ms ==> m in inDegree
      invariant Relax(ms[k..], Frontier(inDegree, queue)) == Relax(ms, Frontier(inDegree0, queue0))
    {
      var m := ms[k];
      assert ms[k..][0] == m && ms[k..][1..] == ms[k + 1..];
      inDegree := inDegree[m := inDegree[m] - 1];
      if inDegree[m] == 0 {
        queue := queue + [m];
      }
    }
  }

  /** The main loop: take a name off the queue, then relax its children. */
  method DrainQueue(steps: seq<Step>, adj: map<string, seq<string>>, inDegree0: map<string, int>, queue0: seq<string>)
    returns (order: seq<string>)
    requires inDegree0.Keys == Names(steps)
    requires forall d :: Get(adj, d) == Children(steps, d)
    ensures order == Drain(steps, Frontier(inDegree0, queue0), [])
  {
    var inDegree, queue := inDegree0, queue0;
    order := [];
    while queue != []
      invariant inDegree.Keys == Names(steps)
      invariant Drain(steps, Frontier(inDegree, queue), order) == Drain(steps, Frontier(inDegree0, queue0), [])
      decreases Open(inDegree), |queue|
    {
      var n := queue[0];
      ChildrenAreNames(steps, n);
      RelaxShrinks(Get(adj, n), Frontier(inDegree, queue[1..]));
      inDegree, queue := RelaxChildren(Get(adj, n), inDegree, queue[1..]);
      order := order + [n];
    }
  }

  method OrderSteps(steps: seq<Step>) returns (r: OrderResult)
    ensures r == Order(steps)
  {
    var names: set<string> := {};
    for i := 0 to |steps|
      invariant names == Names(steps[..i])
    {
      assert steps[..i + 1] == steps[..i] + [steps[i]];
      names := names + {steps[i].name};
    }
    assert steps[..|steps|] == steps;
    var unknown, inDegree, adj := BuildGraph(steps, names);
    if unknown != [] {
      return Rejected(UnknownDependency(unknown[0].0, unknown[0].1));
    }
    var queue := FindRoots(steps, inDegree);
    var order := DrainQueue(steps, adj, inDegree, queue);
    if |order| != |steps| {
      return Rejected(CycleDetected);
    }
    return Ordered(order);
  }

  lemma {:induction false} FirstUnknownIs(names: set<string>, deps: seq<string>, j: nat)
    requires j < |deps| && deps[j] !in names && forall k :: 0 <= k < j ==> deps[k] in names
    ensures FirstUnknown(names, deps) == [deps[j]]
  {
    var last := |deps| - 1;
    if j < last {
      FirstUnknownIs(names, deps[..last], j);
    } else {
      FirstUnknownNone(names, deps[..last]);
    }
  }

  lemma {:induction false} FirstUnknownStepIs(names: set<string>, steps: seq<Step>, j: nat)
    requires j < |steps| && FirstUnknown(names, steps[j].dependsOn) != []
    requires forall k :: 0 <= k < j ==> AllKnown(names, steps[k].dependsOn)
    ensures FirstUnknownStep(names, steps) == [(steps[j].name, FirstUnknown(names, steps[j].dependsOn)[0])]
  {
    var last := |steps| - 1;
    if j < last {
      FirstUnknownStepIs(names, steps[..last], j);
    } else {
      FirstUnknownStepNone(names, steps[..last]);
    }
  }
}
