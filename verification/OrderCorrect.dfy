/**
 What the computed order means. For steps with unique names, `Order` succeeds exactly when every
 dependency names a step and no chain of dependencies closes on itself, and a successful order lists
 every step once with its dependencies before it.
 */
module OrderCorrect {
  import opened Sequences
  import opened Steps
  import opened OrderSteps

  /** How many entries of `deps` are not in `done`. */
  function Missing(deps: seq<string>, done: seq<string>): nat {
    if deps == [] then 0
    else Missing(deps[..|deps| - 1], done) + if deps[|deps| - 1] in done then 0 else 1
  }

  lemma {:induction false} MissingZero(deps: seq<string>, done: seq<string>)
    ensures Missing(deps, done) == 0 <==> forall d :: d in deps ==> d in done
  {
    if deps != [] {
      var last := |deps| - 1;
      MissingZero(deps[..last], done);
      assert deps == deps[..last] + [deps[last]];
    }
  }

  lemma {:induction false} MissingSnoc(deps: seq<string>, done: seq<string>, n: string)
    requires n !in done
    ensures Missing(deps, done) == Missing(deps, done + [n]) + multiset(deps)[n]
  {
    if deps != [] {
      var last := |deps| - 1;
      MissingSnoc(deps[..last], done, n);
      assert deps == deps[..last] + [deps[last]];
    }
  }

  lemma {:induction false} MissingNone(deps: seq<string>)
    ensures Missing(deps, []) == |deps|
  {
    if deps != [] {
      MissingNone(deps[..|deps| - 1]);
    }
  }

  // ---------------------------------------------------------------- the invariant of the main loop

  /** Every step left out of `r` waits for another step left out of `r`. */
  ghost predicate Stuck(steps: seq<Step>, r: seq<string>) {
    forall m :: m in Names(steps) && m !in r ==> exists d :: d in Deps(steps, m) && d !in r
  }

  /** What holds of the list when the queue runs dry. */
  ghost predicate Settled(steps: seq<Step>, r: seq<string>) {
    NoDup(r) && DepsFirst(steps, r) && (forall m :: m in r ==> m in Names(steps)) && Stuck(steps, r)
  }

  /** For each step, how many of its listed dependencies are not yet ordered. */
  function Needs(steps: seq<Step>, done: seq<string>): map<string, nat> {
    map m | m in Names(steps) :: Missing(Deps(steps, m), done)
  }

  /**
   In-degrees count what each step still needs, plus the entries of `pending` about to be relaxed;
   `seen` holds every name that was ever queued, which is every name whose in-degree is zero.
   */
  ghost predicate Counted(needs: map<string, nat>, deg: map<string, int>, pending: seq<string>, seen: seq<string>) {
    && deg.Keys == needs.Keys
    && NoDup(seen)
    && (forall m :: m in seen ==> m in deg)
    && (forall m :: m in deg ==> deg[m] == needs[m] + multiset(pending)[m])
    && (forall m :: m in deg ==> (m in seen <==> deg[m] == 0))
  }

  ghost predicate DepsFirst(steps: seq<Step>, order: seq<string>) {
    forall i, d :: 0 <= i < |order| && d in Deps(steps, order[i]) ==> d in order[..i]
  }

  lemma MultisetTail<T>(ms: seq<T>, x: T)
    requires ms != []
    ensures multiset(ms)[x] == multiset(ms[1..])[x] + if ms[0] == x then 1 else 0
  {
    assert ms == [ms[0]] + ms[1..];
  }

  lemma RelaxOneCounted(needs: map<string, nat>, deg: map<string, int>, ms: seq<string>, seen: seq<string>)
    requires ms != [] && ms[0] in deg && Counted(needs, deg, ms, seen)
    ensures var deg' := deg[ms[0] := deg[ms[0]] - 1];
            Counted(needs, deg', ms[1..], if deg'[ms[0]] == 0 then seen + [ms[0]] else seen)
  {
    var m := ms[0];
    MultisetTail(ms, m);
    forall x | x in deg
      ensures multiset(ms[1..])[x] == multiset(ms)[x] - if x == m then 1 else 0
    {
      MultisetTail(ms, x);
    }
  }

  lemma {:induction false} RelaxCounted(needs: map<string, nat>, ms: seq<string>, f: Frontier, g: Frontier, prefix: seq<string>)
    requires forall m :: m in ms ==> m in f.deg
    requires g == Relax(ms, f)
    requires Counted(needs, f.deg, ms, prefix + f.queue)
    ensures Counted(needs, g.deg, [], prefix + g.queue)
    decreases |ms|
  {
    if ms != [] {
      var m := ms[0];
      var deg := f.deg[m := f.deg[m] - 1];
      RelaxOneCounted(needs, f.deg, ms, prefix + f.queue);
      RelaxStep(ms, f);
      if deg[m] == 0 {
        Assoc(prefix, f.queue, [m]);
        RelaxCounted(needs, ms[1..], Frontier(deg, f.queue + [m]), g, prefix);
      } else {
        RelaxCounted(needs, ms[1..], Frontier(deg, f.queue), g, prefix);
      }
    }
  }

  /** One round of the main loop keeps the counts right and the order dependency-first. */
  lemma RoundCounted(steps: seq<Step>, f: Frontier, order: seq<string>)
    requires UniqueNames(steps) && f.queue != []
    requires Counted(Needs(steps, order), f.deg, [], order + f.queue) && DepsFirst(steps, order)
    ensures forall c :: c in Children(steps, f.queue[0]) ==> c in f.deg
    ensures var n := f.queue[0];
            var g := Relax(Children(steps, n), f.(queue := f.queue[1..]));
            && Counted(Needs(steps, order + [n]), g.deg, [], order + [n] + g.queue)
            && DepsFirst(steps, order + [n])
  {
    var n := f.queue[0];
    ChildrenAreNames(steps, n);
    var seen := order + f.queue;
    assert order + [n] + f.queue[1..] == seen;
    assert n in seen && n in f.deg by {
      assert seen[|order|] == n;
    }
    forall i | 0 <= i < |order| ensures order[i] != n {
      assert seen[i] == order[i] && seen[|order|] == n;
    }
    forall m | m in f.deg
      ensures f.deg[m] == Needs(steps, order + [n])[m] + multiset(Children(steps, n))[m]
    {
      MissingSnoc(Deps(steps, m), order, n);
      ChildrenCount(steps, n, m);
    }
    var g := Relax(Children(steps, n), f.(queue := f.queue[1..]));
    RelaxCounted(Needs(steps, order + [n]), Children(steps, n), f.(queue := f.queue[1..]), g, order + [n]);
    MissingZero(Deps(steps, n), order);
    AppendDepsFirst(steps, order, n);
  }

  lemma AppendDepsFirst(steps: seq<Step>, order: seq<string>, n: string)
    requires DepsFirst(steps, order) && forall d :: d in Deps(steps, n) ==> d in order
    ensures DepsFirst(steps, order + [n])
  {
    forall i, d | 0 <= i < |order + [n]| && d in Deps(steps, (order + [n])[i])
      ensures d in (order + [n])[..i]
    {
      assert (order + [n])[..i] == order[..i];
    }
  }

  /** With nothing left to visit, each step left out still waits for another one left out. */
  lemma EmptyQueueSettled(steps: seq<Step>, deg: map<string, int>, order: seq<string>)
    requires Counted(Needs(steps, order), deg, [], order) && DepsFirst(steps, order)
    ensures Settled(steps, order)
  {
    forall m | m in Names(steps) && m !in order ensures exists d :: d in Deps(steps, m) && d !in order {
      assert multiset([])[m] == 0;
      MissingZero(Deps(steps, m), order);
    }
  }

  lemma {:induction false} DrainCounted(steps: seq<Step>, f: Frontier, order: seq<string>)
    requires UniqueNames(steps)
    requires Counted(Needs(steps, order), f.deg, [], order + f.queue) && DepsFirst(steps, order)
    ensures Settled(steps, Drain(steps, f, order))
    decreases Open(f.deg), |f.queue|
  {
    if f.queue == [] {
      assert order + f.queue == order;
      EmptyQueueSettled(steps, f.deg, order);
    } else {
      var n := f.queue[0];
      RoundCounted(steps, f, order);
      RelaxShrinks(Children(steps, n), f.(queue := f.queue[1..]));
      DrainCounted(steps, Relax(Children(steps, n), f.(queue := f.queue[1..])), order + [n]);
    }
  }

  // ---------------------------------------------------------------- initial counts

  lemma {:induction false} InDegreeOf(steps: seq<Step>, m: string)
    requires m in Names(steps)
    ensures InDegrees(steps)[m] == |Deps(steps, m)|
  {
    var last := |steps| - 1;
    assert steps == steps[..last] + [steps[last]];
    if steps[last].name != m {
      InDegreeOf(steps[..last], m);
    }
  }

  lemma {:induction false} RootsOf(steps: seq<Step>, deg: map<string, int>)
    requires Names(steps) <= deg.Keys && UniqueNames(steps)
    ensures NoDup(Roots(steps, deg))
    ensures forall m :: m in Roots(steps, deg) <==> m in Names(steps) && deg[m] == 0
  {
    if steps != [] {
      var last := |steps| - 1;
      assert steps == steps[..last] + [steps[last]];
      RootsOf(steps[..last], deg);
      assert steps[last].name !in Names(steps[..last]);
    }
  }

  /** The counts are right at the start. */
  lemma CountedFromStart(steps: seq<Step>)
    requires UniqueNames(steps)
    ensures var deg := InDegrees(steps); Counted(Needs(steps, []), deg, [], [] + Roots(steps, deg))
  {
    var deg := InDegrees(steps);
    var queue := Roots(steps, deg);
    RootsOf(steps, deg);
    assert [] + queue == queue;
    forall m | m in deg
      ensures deg[m] == Needs(steps, [])[m] + multiset([])[m]
    {
      InDegreeOf(steps, m);
      MissingNone(Deps(steps, m));
    }
  }

  lemma DrainFromStart(steps: seq<Step>)
    requires UniqueNames(steps)
    ensures var deg := InDegrees(steps);
            Settled(steps, Drain(steps, Frontier(deg, Roots(steps, deg)), []))
  {
    hide Settled, Counted, Drain;
    var deg := InDegrees(steps);
    CountedFromStart(steps);
    DrainCounted(steps, Frontier(deg, Roots(steps, deg)), []);
  }

  // ---------------------------------------------------------------- cycles

  /** A chain of dependencies that never reaches the ordered names, as long as wanted. */
  lemma {:induction false} StuckPath(steps: seq<Step>, r: seq<string>, m: string, k: nat) returns (p: seq<string>)
    requires KnownDeps(steps) && m in Names(steps) && m !in r
    requires Stuck(steps, r)
    ensures |p| == k + 1 && p[0] == m && DepPath(steps, p) && forall x :: x in p ==> x in Names(steps)
    decreases k
  {
    if k == 0 {
      p := [m];
    } else {
      var d :| d in Deps(steps, m) && d !in r;
      DepsKnown(steps, m, d);
      var rest := StuckPath(steps, r, d, k - 1);
      p := [m] + rest;
      forall i | 0 <= i < |p| - 1 ensures p[i] in Names(steps) && p[i + 1] in Deps(steps, p[i]) {
        if i > 0 {
          assert p[i] == rest[i - 1] && p[i + 1] == rest[i];
        }
      }
    }
  }

  lemma StuckMeansCycle(steps: seq<Step>, r: seq<string>, m: string)
    requires KnownDeps(steps) && m in Names(steps) && m !in r
    requires Stuck(steps, r)
    ensures HasCycle(steps)
  {
    hide DepPath, KnownDeps, Stuck, Names;
    var p := StuckPath(steps, r, m, |Names(steps)|);
    var i, j := Pigeonhole(p, Names(steps));
    SubPath(steps, p, i, j + 1);
    assert |p[i..j + 1]| >= 2;
  }

  lemma Pigeonhole<T>(s: seq<T>, all: set<T>) returns (i: nat, j: nat)
    requires |s| > |all| && forall x :: x in s ==> x in all
    ensures i < j < |s| && s[i] == s[j]
  {
    assert !NoDup(s) by {
      if NoDup(s) {
        NoDupBound(s, all);
      }
    }
    i, j :| 0 <= i < j < |s| && s[i] == s[j];
  }

  lemma SubPath(steps: seq<Step>, p: seq<string>, i: nat, j: nat)
    requires DepPath(steps, p) && i < j <= |p|
    ensures DepPath(steps, p[i..j])
    ensures p[i..j][0] == p[i] && p[i..j][j - i - 1] == p[j - 1]
  {
    var c := p[i..j];
    forall k | 0 <= k < |c| - 1 ensures c[k] in Names(steps) && c[k + 1] in Deps(steps, c[k]) {
      assert c[k] == p[i + k] && c[k + 1] == p[i + k + 1];
    }
  }

  /** Along a dependency path, positions in a dependency-first order go down. */
  lemma {:induction false} PathDescends(steps: seq<Step>, order: seq<string>, p: seq<string>, i: nat)
    requires IsOrder(steps, order) && DepPath(steps, p) && |p| >= 2 && i < |order| && order[i] == p[0]
    ensures p[|p| - 1] in order[..i]
    decreases |p|
  {
    assert p[1] in Deps(steps, p[0]);
    assert p[1] in order[..i];
    if |p| > 2 {
      var j :| 0 <= j < i && order[j] == p[1];
      SubPath(steps, p, 1, |p|);
      var q := p[1..|p|];
      PathDescends(steps, order, q, j);
      assert order[..j] == order[..i][..j];
    }
  }

  lemma OrderMeansNoCycle(steps: seq<Step>, order: seq<string>)
    requires IsOrder(steps, order)
    ensures !HasCycle(steps)
  {
    forall p | |p| >= 2 && DepPath(steps, p) ensures p[0] != p[|p| - 1] {
      assert p[0] in Names(steps);
      var i :| 0 <= i < |order| && order[i] == p[0];
      PathDescends(steps, order, p, i);
    }
  }

  lemma CompleteMeansOrder(steps: seq<Step>, r: seq<string>)
    requires UniqueNames(steps) && NoDup(r) && DepsFirst(steps, r)
    requires forall m :: m in r ==> m in Names(steps)
    ensures |r| == |steps| <==> IsOrder(steps, r)
    ensures |r| != |steps| ==> exists m :: m in Names(steps) && m !in r
  {
    NamesCount(steps);
    var covered := set m | m in r;
    SeqAsSet(r);
    if |r| == |steps| {
      assert covered <= Names(steps);
      forall m | m in Names(steps) ensures m in r {
        if m !in r {
          NoDupBound(r, Names(steps) - {m});
        }
      }
    } else {
      var all := Names(steps);
      assert covered <= all && covered != all;
      assert covered == all || !(all <= covered);
    }
  }

  lemma {:induction false} SeqAsSet<T>(s: seq<T>)
    requires NoDup(s)
    ensures |(set x | x in s)| == |s|
  {
    if s != [] {
      var last := |s| - 1;
      SeqAsSet(s[..last]);
      assert (set x | x in s) == (set x | x in s[..last]) + {s[last]};
    }
  }

  lemma UnknownMeansUnknown(steps: seq<Step>)
    ensures FirstUnknownStep(Names(steps), steps) == [] <==> KnownDeps(steps)
    ensures var u := FirstUnknownStep(Names(steps), steps);
            u != [] ==> u[0].1 !in Names(steps) && exists s :: s in steps && s.name == u[0].0 && u[0].1 in s.dependsOn
  {
    FirstUnknownStepNone(Names(steps), steps);
    assert forall k :: 0 <= k < |steps| ==> steps[k] in steps;
    if KnownDeps(steps) {
      forall k | 0 <= k < |steps| ensures AllKnown(Names(steps), steps[k].dependsOn) {
        assert forall j :: 0 <= j < |steps[k].dependsOn| ==> steps[k].dependsOn[j] in steps[k].dependsOn;
      }
    }
  }

  /** An unknown dependency is reported for the first step that has one, and is the first it has. */
  lemma UnknownReported(steps: seq<Step>, i: nat, j: nat)
    requires i < |steps| && j < |steps[i].dependsOn| && steps[i].dependsOn[j] !in Names(steps)
    requires forall k, l :: 0 <= k < i && 0 <= l < |steps[k].dependsOn| ==> steps[k].dependsOn[l] in Names(steps)
    requires forall l :: 0 <= l < j ==> steps[i].dependsOn[l] in Names(steps)
    ensures Order(steps) == Rejected(UnknownDependency(steps[i].name, steps[i].dependsOn[j]))
  {
    hide Drain, Names;
    FirstUnknownIs(Names(steps), steps[i].dependsOn, j);
    FirstUnknownStepIs(Names(steps), steps, i);
  }

  /** Soundness and completeness of the ordering for steps with unique names. */
  lemma OrderIsCorrect(steps: seq<Step>)
    requires UniqueNames(steps)
    ensures Order(steps).Ordered? <==> KnownDeps(steps) && !HasCycle(steps)
    ensures Order(steps).Ordered? ==> IsOrder(steps, Order(steps).order)
    ensures Order(steps) == Rejected(CycleDetected) <==> KnownDeps(steps) && HasCycle(steps)
    ensures Order(steps).Rejected? && Order(steps).error.UnknownDependency? ==>
              exists s :: s in steps && s.name == Order(steps).error.step
                       && Order(steps).error.dep in s.dependsOn && Order(steps).error.dep !in Names(steps)
  {
    UnknownMeansUnknown(steps);
    if KnownDeps(steps) {
      var deg := InDegrees(steps);
      var r := Drain(steps, Frontier(deg, Roots(steps, deg)), []);
      DrainFromStart(steps);
      CompleteMeansOrder(steps, r);
      if |r| == |steps| {
        OrderMeansNoCycle(steps, r);
      } else {
        var m :| m in Names(steps) && m !in r;
        StuckMeansCycle(steps, r, m);
      }
    }
  }
}
