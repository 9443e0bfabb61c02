/**
 Which dependency-first order the ordering yields. Steps come in the order in which their last dependency
 comes, those without dependencies first; ties are broken by declaration. There is one such order, and the
 positions of results, logs and artifacts are its positions.
 */
module OrderTies {
  import opened Sequences
  import opened Steps
  import opened OrderSteps
  import opened OrderCorrect

  /** The position in `order` of the last dependency of `m` that is there, or -1. */
  function LastDep(steps: seq<Step>, order: seq<string>, m: string): (p: int)
    ensures -1 <= p < |order|
    ensures p >= 0 ==> order[p] in Deps(steps, m)
    ensures forall i :: p < i < |order| ==> order[i] !in Deps(steps, m)
  {
    if order == [] then -1
    else
      var last := |order| - 1;
      if order[last] in Deps(steps, m) then last else LastDep(steps, order[..last], m)
  }

  /** The index at which a name is first declared. */
  function Declared(steps: seq<Step>, m: string): (i: nat)
    ensures i <= |steps|
    ensures i < |steps| ==> steps[i].name == m
    ensures forall j :: 0 <= j < i ==> steps[j].name != m
  {
    if steps == [] || steps[0].name == m then 0
    else
      assert forall j :: 0 < j < |steps| ==> steps[j] == steps[1..][j - 1];
      1 + Declared(steps[1..], m)
  }

  /** The step whose last dependency comes first goes first; of two with the same one, that declared first. */
  ghost predicate Before(steps: seq<Step>, order: seq<string>, x: string, y: string) {
    var a, b := LastDep(steps, order, x), LastDep(steps, order, y);
    a < b || (a == b && Declared(steps, x) < Declared(steps, y))
  }

  ghost predicate Ranked(steps: seq<Step>, order: seq<string>, seen: seq<string>) {
    forall i, j :: 0 <= i < j < |seen| ==> Before(steps, order, seen[i], seen[j])
  }

  // ---------------------------------------------------------------- declaration order

  lemma DeclaredAt(steps: seq<Step>, i: nat)
    requires UniqueNames(steps) && i < |steps|
    ensures Declared(steps, steps[i].name) == i
  {
  }

  lemma DeclaredOnce(steps: seq<Step>, x: string, y: string)
    requires x in Names(steps) && Declared(steps, x) == Declared(steps, y)
    ensures x == y
  {
    var s :| s in steps && s.name == x;
    var i :| 0 <= i < |steps| && steps[i] == s;
  }

  ghost predicate Ascends(steps: seq<Step>, names: seq<string>) {
    forall i, j :: 0 <= i < j < |names| ==> Declared(steps, names[i]) <= Declared(steps, names[j])
  }

  ghost predicate DeclaredBefore(steps: seq<Step>, names: seq<string>, k: nat) {
    forall n :: n in names ==> Declared(steps, n) < k
  }

  lemma AscendsMore(steps: seq<Step>, a: seq<string>, b: seq<string>, k: nat)
    requires k < |steps| && UniqueNames(steps) && Ascends(steps, a) && DeclaredBefore(steps, a, k)
    requires forall n :: n in b ==> n == steps[k].name
    ensures Ascends(steps, a + b) && DeclaredBefore(steps, a + b, k + 1)
  {
    DeclaredAt(steps, k);
    var c := a + b;
    forall i | 0 <= i < |c| ensures c[i] in a || c[i] in b {
    }
    forall i, j | 0 <= i < j < |c| ensures Declared(steps, c[i]) <= Declared(steps, c[j]) {
      if j < |a| {
        assert c[i] == a[i] && c[j] == a[j];
      } else if i < |a| {
        assert c[i] == a[i] && c[i] in a && c[j] == b[j - |a|] && c[j] in b;
      } else {
        assert c[i] == b[i - |a|] && c[i] in b && c[j] == b[j - |a|] && c[j] in b;
      }
    }
  }

  lemma {:induction false} ChildrenAscend(steps: seq<Step>, d: string, k: nat)
    requires UniqueNames(steps) && k <= |steps|
    ensures Ascends(steps, Children(steps[..k], d)) && DeclaredBefore(steps, Children(steps[..k], d), k)
  {
    hide Ascends, DeclaredBefore, Copies;
    if k == 0 {
      NoneAscend(steps, Children(steps[..k], d), k);
    } else {
      ChildrenAscend(steps, d, k - 1);
      assert steps[..k][..k - 1] == steps[..k - 1];
      CopiesAreName(steps[k - 1].name, steps[k - 1].dependsOn, d);
      AscendsMore(steps, Children(steps[..k - 1], d), Copies(steps[k - 1].name, steps[k - 1].dependsOn, d), k - 1);
    }
  }

  lemma NoneAscend(steps: seq<Step>, names: seq<string>, k: nat)
    requires names == []
    ensures Ascends(steps, names) && DeclaredBefore(steps, names, k)
  {
  }

  lemma {:induction false} RootsAscend(steps: seq<Step>, deg: map<string, int>, k: nat)
    requires UniqueNames(steps) && k <= |steps| && Names(steps[..k]) <= deg.Keys
    ensures Ascends(steps, Roots(steps[..k], deg)) && DeclaredBefore(steps, Roots(steps[..k], deg), k)
  {
    hide Ascends, DeclaredBefore;
    if k == 0 {
      NoneAscend(steps, Roots(steps[..k], deg), k);
    } else {
      assert steps[..k][..k - 1] == steps[..k - 1];
      assert forall s :: s in steps[..k - 1] ==> s in steps[..k];
      RootsAscend(steps, deg, k - 1);
      var more := if deg[steps[k - 1].name] == 0 then [steps[k - 1].name] else [];
      AscendsMore(steps, Roots(steps[..k - 1], deg), more, k - 1);
    }
  }

  // ---------------------------------------------------------------- what one round adds

  /** Lowering in-degrees only adds to the queue, in the order of the names given. */
  lemma {:induction false} RelaxAdds(steps: seq<Step>, ms: seq<string>, f: Frontier) returns (add: seq<string>)
    requires (forall m :: m in ms ==> m in f.deg) && Ascends(steps, ms)
    ensures Relax(ms, f).queue == f.queue + add && Ascends(steps, add) && forall m :: m in add ==> m in ms
    decreases |ms|
  {
    if ms == [] {
      add := [];
    } else {
      var m := ms[0];
      var deg := f.deg[m := f.deg[m] - 1];
      RelaxStep(ms, f);
      assert forall i :: 0 <= i < |ms| - 1 ==> ms[1..][i] == ms[i + 1];
      if deg[m] == 0 {
        var rest := RelaxAdds(steps, ms[1..], Frontier(deg, f.queue + [m]));
        Assoc(f.queue, [m], rest);
        add := [m] + rest;
        FirstAscends(steps, ms, rest);
      } else {
        add := RelaxAdds(steps, ms[1..], Frontier(deg, f.queue));
      }
    }
  }

  lemma FirstAscends(steps: seq<Step>, ms: seq<string>, rest: seq<string>)
    requires ms != [] && Ascends(steps, ms) && Ascends(steps, rest) && forall m :: m in rest ==> m in ms[1..]
    ensures Ascends(steps, [ms[0]] + rest)
  {
    var add := [ms[0]] + rest;
    forall i, j | 0 <= i < j < |add| ensures Declared(steps, add[i]) <= Declared(steps, add[j]) {
      assert add[j] == rest[j - 1] && add[j] in rest;
      var k :| 0 <= k < |ms[1..]| && ms[1..][k] == add[j];
      assert ms[k + 1] == add[j];
      if i > 0 {
        assert add[i] == rest[i - 1];
      }
    }
  }

  /** A step queued before has no dependency among those ordered since. */
  lemma LastDepStays(steps: seq<Step>, order: seq<string>, n: string, m: string)
    requires n !in Deps(steps, m)
    ensures LastDep(steps, order + [n], m) == LastDep(steps, order, m)
  {
    assert (order + [n])[..|order|] == order;
  }

  lemma LastDepNow(steps: seq<Step>, order: seq<string>, n: string, m: string)
    requires n in Deps(steps, m)
    ensures LastDep(steps, order + [n], m) == |order|
  {
  }

  lemma RankedMore(steps: seq<Step>, order: seq<string>, n: string, seen: seq<string>, add: seq<string>)
    requires Ranked(steps, order, seen) && Ascends(steps, add) && NoDup(seen + add)
    requires forall m :: m in seen ==> n !in Deps(steps, m)
    requires forall m :: m in add ==> n in Deps(steps, m) && m in Names(steps)
    ensures Ranked(steps, order + [n], seen + add)
  {
    hide NoDup, LastDep, Declared, Names, Deps;
    var all := seen + add;
    forall i, j | 0 <= i < j < |all| ensures Before(steps, order + [n], all[i], all[j]) {
      RankedPair(steps, order, n, seen, add, i, j);
    }
  }

  lemma RankedPair(steps: seq<Step>, order: seq<string>, n: string, seen: seq<string>, add: seq<string>, i: nat, j: nat)
    requires Ranked(steps, order, seen) && Ascends(steps, add) && NoDup(seen + add)
    requires forall m :: m in seen ==> n !in Deps(steps, m)
    requires forall m :: m in add ==> n in Deps(steps, m) && m in Names(steps)
    requires i < j < |seen + add|
    ensures Before(steps, order + [n], (seen + add)[i], (seen + add)[j])
  {
    hide LastDep, Declared, Names, Deps, Ranked, Ascends;
    var all := seen + add;
    var x, y := all[i], all[j];
    if j < |seen| {
      assert x == seen[i] && y == seen[j] && x in seen && y in seen;
      LastDepStays(steps, order, n, x);
      LastDepStays(steps, order, n, y);
      RankedAt(steps, order, seen, i, j);
    } else {
      assert y == add[j - |seen|] && y in add;
      LastDepNow(steps, order, n, y);
      if i < |seen| {
        assert x == seen[i] && x in seen;
        LastDepStays(steps, order, n, x);
      } else {
        assert x == add[i - |seen|] && x in add;
        LastDepNow(steps, order, n, x);
        AscendsAt(steps, add, i - |seen|, j - |seen|);
        if Declared(steps, x) == Declared(steps, y) {
          DeclaredOnce(steps, x, y);
        }
      }
    }
  }

  lemma RankedAt(steps: seq<Step>, order: seq<string>, seen: seq<string>, i: nat, j: nat)
    requires Ranked(steps, order, seen) && i < j < |seen|
    ensures Before(steps, order, seen[i], seen[j])
  {
  }

  lemma AscendsAt(steps: seq<Step>, names: seq<string>, i: nat, j: nat)
    requires Ascends(steps, names) && i < j < |names|
    ensures Declared(steps, names[i]) <= Declared(steps, names[j])
  {
  }

  // ---------------------------------------------------------------- the whole loop

  /** Whatever was queued has all its dependencies ordered. */
  lemma SeenDeps(steps: seq<Step>, f: Frontier, order: seq<string>, m: string)
    requires Counted(Needs(steps, order), f.deg, [], order + f.queue) && m in order + f.queue
    ensures m in Names(steps) && forall d :: d in Deps(steps, m) ==> d in order
  {
    hide Deps, Names;
    assert m in f.deg && f.deg[m] == 0;
    assert multiset([])[m] == 0;
    MissingZero(Deps(steps, m), order);
  }

  lemma RoundRanked(steps: seq<Step>, f: Frontier, order: seq<string>)
    requires UniqueNames(steps) && f.queue != []
    requires Counted(Needs(steps, order), f.deg, [], order + f.queue) && DepsFirst(steps, order)
    requires Ranked(steps, order, order + f.queue)
    ensures forall c :: c in Children(steps, f.queue[0]) ==> c in f.deg
    ensures var g := Relax(Children(steps, f.queue[0]), f.(queue := f.queue[1..]));
            Ranked(steps, order + [f.queue[0]], order + [f.queue[0]] + g.queue)
  {
    hide Ranked, DepsFirst, Ascends, Relax, Counted, UniqueNames;
    var n := f.queue[0];
    var seen := order + f.queue;
    RoundCounted(steps, f, order);
    assert steps[..|steps|] == steps;
    ChildrenAscend(steps, n, |steps|);
    var add := RelaxAdds(steps, Children(steps, n), f.(queue := f.queue[1..]));
    var g := Relax(Children(steps, n), f.(queue := f.queue[1..]));
    assert f.queue == [n] + f.queue[1..];
    assert order + [n] + g.queue == seen + add;
    CountedNoDup(steps, order + [n], g);
    NotYetOrdered(steps, f, order);
    forall m | m in seen ensures n !in Deps(steps, m) {
      SeenDeps(steps, f, order, m);
    }
    forall m | m in add ensures n in Deps(steps, m) && m in Names(steps) {
      ChildrenMember(steps, n, m);
      ChildrenAreNames(steps, n);
    }
    RankedMore(steps, order, n, seen, add);
  }

  lemma CountedNoDup(steps: seq<Step>, order: seq<string>, g: Frontier)
    requires Counted(Needs(steps, order), g.deg, [], order + g.queue)
    ensures NoDup(order + g.queue)
  {
  }

  lemma NotYetOrdered(steps: seq<Step>, f: Frontier, order: seq<string>)
    requires f.queue != [] && Counted(Needs(steps, order), f.deg, [], order + f.queue)
    ensures f.queue[0] !in order
  {
    CountedNoDup(steps, order, f);
    var seen := order + f.queue;
    assert seen[|order|] == f.queue[0];
    forall i | 0 <= i < |order| ensures order[i] != f.queue[0] {
      assert seen[i] == order[i];
    }
  }

  lemma CountedKeys(steps: seq<Step>, f: Frontier, order: seq<string>)
    requires Counted(Needs(steps, order), f.deg, [], order + f.queue)
    ensures Names(steps) <= f.deg.Keys
  {
  }

  lemma {:induction false} DrainRanked(steps: seq<Step>, f: Frontier, order: seq<string>)
    requires UniqueNames(steps)
    requires Counted(Needs(steps, order), f.deg, [], order + f.queue) && DepsFirst(steps, order)
    requires Ranked(steps, order, order + f.queue)
    ensures var r := Drain(steps, f, order); Ranked(steps, r, r)
    decreases Open(f.deg), |f.queue|
  {
    hide Ranked, Counted, DepsFirst, UniqueNames, Relax;
    if f.queue == [] {
      assert order + f.queue == order;
      CountedKeys(steps, f, order);
      DrainNone(steps, f, order);
    } else {
      var n := f.queue[0];
      RoundCounted(steps, f, order);
      RoundRanked(steps, f, order);
      RelaxShrinks(Children(steps, n), f.(queue := f.queue[1..]));
      var g := Relax(Children(steps, n), f.(queue := f.queue[1..]));
      CountedKeys(steps, f, order);
      DrainRanked(steps, g, order + [n]);
      DrainOne(steps, f, order, g);
    }
  }

  lemma RankedFromStart(steps: seq<Step>)
    requires UniqueNames(steps)
    ensures var deg := InDegrees(steps); var r := Drain(steps, Frontier(deg, Roots(steps, deg)), []); Ranked(steps, r, r)
  {
    hide DepsFirst, Roots, UniqueNames, Ranked, Counted;
    var deg := InDegrees(steps);
    var queue := Roots(steps, deg);
    CountedFromStart(steps);
    assert [] + queue == queue;
    assert steps[..|steps|] == steps;
    RootsAscend(steps, deg, |steps|);
    RootsRanked(steps, deg);
    NoneFirst(steps);
    DrainRanked(steps, Frontier(deg, queue), []);
  }

  lemma NoneFirst(steps: seq<Step>)
    ensures DepsFirst(steps, [])
  {
  }

  lemma RootsRanked(steps: seq<Step>, deg: map<string, int>)
    requires UniqueNames(steps) && deg.Keys == Names(steps) && Ascends(steps, Roots(steps, deg))
    ensures Ranked(steps, [], Roots(steps, deg))
  {
    hide Declared, Names, UniqueNames, Roots, Ascends;
    RootsOf(steps, deg);
    var queue := Roots(steps, deg);
    forall i, j | 0 <= i < j < |queue| ensures Before(steps, [], queue[i], queue[j]) {
      AscendsAt(steps, queue, i, j);
      assert queue[i] in queue;
      if Declared(steps, queue[i]) == Declared(steps, queue[j]) {
        DeclaredOnce(steps, queue[i], queue[j]);
      }
    }
  }

  // ---------------------------------------------------------------- the order, and no other

  /** The order that is yielded is ranked. */
  lemma OrderRanked(steps: seq<Step>)
    requires UniqueNames(steps) && Order(steps).Ordered?
    ensures Ranked(steps, Order(steps).order, Order(steps).order)
  {
    hide Ranked, Drain, Roots, InDegrees, FirstUnknownStep;
    RankedFromStart(steps);
  }

  /** Of two steps, the one whose last dependency comes first comes first, ties broken by declaration. */
  lemma OrderTieBreak(steps: seq<Step>, i: nat, j: nat)
    requires UniqueNames(steps) && Order(steps).Ordered?
    requires i < |Order(steps).order| && j < |Order(steps).order|
    ensures var r := Order(steps).order;
            var a, b := LastDep(steps, r, r[i]), LastDep(steps, r, r[j]);
            i < j <==> a < b || (a == b && Declared(steps, r[i]) < Declared(steps, r[j]))
  {
    hide Order, LastDep, Declared;
    OrderRanked(steps);
  }

  lemma {:induction false} LastDepPrefix(steps: seq<Step>, r: seq<string>, k: nat, m: string)
    requires k <= |r| && NoDup(r) && forall d :: d in Deps(steps, m) ==> d in r[..k]
    ensures LastDep(steps, r, m) == LastDep(steps, r[..k], m)
    decreases |r|
  {
    if k == |r| {
      assert r[..k] == r;
    } else {
      var last := |r| - 1;
      assert r[..last][..k] == r[..k];
      assert r[last] !in r[..k];
      LastDepPrefix(steps, r[..last], k, m);
    }
  }

  /** Where `r` and `q` agree so far and `x` comes next in `r`, `x` is before every other step that may come next. */
  lemma NextFirst(steps: seq<Step>, r: seq<string>, k: nat, x: string, y: string)
    requires IsOrder(steps, r) && Ranked(steps, r, r) && k < |r| && r[k] == x && x != y
    requires y in Names(steps) && y !in r[..k] && forall d :: d in Deps(steps, y) ==> d in r[..k]
    ensures Before(steps, r[..k], x, y)
  {
    hide LastDep, Declared, Deps, Ranked;
    assert y in r;
    var j :| 0 <= j < |r| && r[j] == y;
    assert j > k by {
      if j < k {
        InPrefix(r, k, j);
      }
    }
    RankedAt(steps, r, r, k, j);
    LastDepPrefix(steps, r, k, x);
    LastDepPrefix(steps, r, k, y);
  }

  lemma InPrefix(r: seq<string>, k: nat, j: nat)
    requires j < k <= |r|
    ensures r[j] in r[..k]
  {
    assert r[..k][j] == r[j];
  }

  lemma {:induction false} SamePrefix(steps: seq<Step>, r: seq<string>, q: seq<string>, k: nat)
    requires IsOrder(steps, r) && Ranked(steps, r, r) && IsOrder(steps, q) && Ranked(steps, q, q) && k <= |steps|
    ensures r[..k] == q[..k]
  {
    hide Ranked, LastDep, Declared, Deps;
    if k > 0 {
      SamePrefix(steps, r, q, k - 1);
      var x, y := r[k - 1], q[k - 1];
      if x != y {
        NotEarlier(r, k - 1);
        NotEarlier(q, k - 1);
        assert x in r && y in q;
        NextFirst(steps, r, k - 1, x, y);
        NextFirst(steps, q, k - 1, y, x);
      }
      assert r[..k] == r[..k - 1] + [x] && q[..k] == q[..k - 1] + [y];
    }
  }

  lemma NotEarlier(r: seq<string>, k: nat)
    requires NoDup(r) && k < |r|
    ensures r[k] !in r[..k]
  {
  }

  /** An order that is ranked is the only one. */
  lemma RankedOnce(steps: seq<Step>, r: seq<string>, q: seq<string>)
    requires IsOrder(steps, r) && Ranked(steps, r, r) && IsOrder(steps, q) && Ranked(steps, q, q)
    ensures r == q
  {
    SamePrefix(steps, r, q, |steps|);
    assert r[..|steps|] == r && q[..|steps|] == q;
  }

  /** The ordering yields exactly the ranked dependency-first order of steps whose dependencies are known. */
  lemma OrderIsRanked(steps: seq<Step>, r: seq<string>)
    requires UniqueNames(steps)
    ensures Order(steps) == Ordered(r) <==> KnownDeps(steps) && IsOrder(steps, r) && Ranked(steps, r, r)
  {
    hide Order, Ranked, IsOrder, HasCycle;
    OrderIsCorrect(steps);
    if Order(steps).Ordered? {
      OrderRanked(steps);
    }
    if KnownDeps(steps) && IsOrder(steps, r) && Ranked(steps, r, r) {
      OrderMeansNoCycle(steps, r);
      RankedOnce(steps, r, Order(steps).order);
    }
  }
}
