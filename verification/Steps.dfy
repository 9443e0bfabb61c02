/** The steps of a workflow and the relation `depends_on` draws between them. */
module Steps {

  /** `Unset` is the empty status: the value a status slot holds before its step completes. */
  datatype StepStatus = Unset | Pending | Running | Success | Failed | Skipped | Canceled

  datatype Step = Step(name: string, dependsOn: seq<string>, retry: nat)

  datatype StepResult = StepResult(name: string, status: StepStatus, exitCode: int, error: string)

  function Names(steps: seq<Step>): set<string> {
    set s | s in steps :: s.name
  }

  ghost predicate UniqueNames(steps: seq<Step>) {
    forall i, j :: 0 <= i < j < |steps| ==> steps[i].name != steps[j].name
  }

  ghost predicate NoDup<T>(s: seq<T>) {
    forall i, j :: 0 <= i < j < |s| ==> s[i] != s[j]
  }

  /** No step repeats an entry of its own `depends_on`. */
  ghost predicate NoRepeatedDeps(steps: seq<Step>) {
    forall s :: s in steps ==> NoDup(s.dependsOn)
  }

  /** The `depends_on` list recorded under a name; the last declaration of a name wins. */
  function Deps(steps: seq<Step>, name: string): seq<string> {
    if steps == [] then []
    else if steps[|steps| - 1].name == name then steps[|steps| - 1].dependsOn
    else Deps(steps[..|steps| - 1], name)
  }

  /** One copy of `name` for each occurrence of `d` in `deps`. */
  function Copies(name: string, deps: seq<string>, d: string): seq<string> {
    if deps == [] then []
    else Copies(name, deps[..|deps| - 1], d) + if deps[|deps| - 1] == d then [name] else []
  }

  /** The steps that list `d`, in declaration order, once for each time they list it. */
  function Children(steps: seq<Step>, d: string): seq<string> {
    if steps == [] then []
    else Children(steps[..|steps| - 1], d) + Copies(steps[|steps| - 1].name, steps[|steps| - 1].dependsOn, d)
  }

  /** Consecutive entries of `p` follow a `depends_on` entry, from dependent to dependency. */
  ghost predicate DepPath(steps: seq<Step>, p: seq<string>) {
    forall i :: 0 <= i < |p| - 1 ==> p[i] in Names(steps) && p[i + 1] in Deps(steps, p[i])
  }

  ghost predicate HasCycle(steps: seq<Step>) {
    exists p :: |p| >= 2 && DepPath(steps, p) && p[0] == p[|p| - 1]
  }

  ghost predicate KnownDeps(steps: seq<Step>) {
    forall s, d :: s in steps && d in s.dependsOn ==> d in Names(steps)
  }

  /** `order` lists every step once, each after all of its dependencies. */
  ghost predicate IsOrder(steps: seq<Step>, order: seq<string>) {
    && NoDup(order)
    && |order| == |steps|
    && (forall n :: n in order <==> n in Names(steps))
    && (forall i, d :: 0 <= i < |order| && d in Deps(steps, order[i]) ==> d in order[..i])
  }

  lemma {:induction false} DepsOfUnknown(steps: seq<Step>, name: string)
    requires name !in Names(steps)
    ensures Deps(steps, name) == []
  {
    if steps != [] {
      var last := |steps| - 1;
      assert steps[last] in steps;
      assert forall s :: s in steps[..last] ==> s in steps;
      DepsOfUnknown(steps[..last], name);
    }
  }

  lemma {:induction false} DepsFromStep(steps: seq<Step>, name: string)
    requires name in Names(steps)
    ensures exists i :: 0 <= i < |steps| && steps[i].name == name && steps[i].dependsOn == Deps(steps, name)
  {
    var last := |steps| - 1;
    var s :| s in steps && s.name == name;
    if steps[last].name != name {
      assert s in steps[..last];
      DepsFromStep(steps[..last], name);
      var i :| 0 <= i < |steps[..last]| && steps[..last][i].name == name && steps[..last][i].dependsOn == Deps(steps[..last], name);
      assert steps[i].name == name;
    }
  }

  /** Every dependency of a step names a step, when all listed dependencies do. */
  lemma DepsKnown(steps: seq<Step>, name: string, d: string)
    requires KnownDeps(steps) && d in Deps(steps, name)
    ensures name in Names(steps) && d in Names(steps)
  {
    if name !in Names(steps) {
      DepsOfUnknown(steps, name);
    } else {
      DepsFromStep(steps, name);
    }
  }

  lemma {:induction false} CopiesCount(name: string, deps: seq<string>, d: string)
    ensures multiset(Copies(name, deps, d)) == multiset{}[name := multiset(deps)[d]]
  {
    if deps != [] {
      var last := |deps| - 1;
      CopiesCount(name, deps[..last], d);
      assert deps == deps[..last] + [deps[last]];
    }
  }

  /** With unique names, a step appears among the children of `d` once for each time it lists `d`. */
  lemma {:induction false} ChildrenCount(steps: seq<Step>, d: string, c: string)
    requires UniqueNames(steps)
    ensures multiset(Children(steps, d))[c] == multiset(Deps(steps, c))[d]
  {
    if steps != [] {
      var last := |steps| - 1;
      var s := steps[last];
      ChildrenCount(steps[..last], d, c);
      CopiesCount(s.name, s.dependsOn, d);
      if s.name == c {
        assert c !in Names(steps[..last]);
        DepsOfUnknown(steps[..last], c);
      }
    }
  }

  lemma ChildrenMember(steps: seq<Step>, d: string, c: string)
    requires UniqueNames(steps)
    ensures c in Children(steps, d) <==> d in Deps(steps, c)
  {
    ChildrenCount(steps, d, c);
    assert c in Children(steps, d) <==> c in multiset(Children(steps, d));
    assert d in Deps(steps, c) <==> d in multiset(Deps(steps, c));
  }

  lemma NoDupMultiset<T>(s: seq<T>)
    requires forall x :: x in s ==> multiset(s)[x] == 1
    ensures NoDup(s)
  {
    forall i, j | 0 <= i < j < |s| ensures s[i] != s[j] {
      assert s == s[..j] + s[j..];
      assert s[i] in s[..j] && s[j] in s[j..];
      assert s[i] in multiset(s[..j]) && s[j] in multiset(s[j..]);
      assert multiset(s)[s[j]] == multiset(s[..j])[s[j]] + multiset(s[j..])[s[j]];
    }
  }

  lemma {:induction false} NoDupCount<T>(s: seq<T>, x: T)
    requires NoDup(s) && x in s
    ensures multiset(s)[x] == 1
  {
    var last := |s| - 1;
    assert s == s[..last] + [s[last]];
    if x in s[..last] {
      NoDupCount(s[..last], x);
    } else {
      assert x !in multiset(s[..last]);
    }
  }

  lemma ChildrenNoDup(steps: seq<Step>, d: string)
    requires UniqueNames(steps) && NoRepeatedDeps(steps)
    ensures NoDup(Children(steps, d))
  {
    forall c | c in Children(steps, d) ensures multiset(Children(steps, d))[c] == 1 {
      ChildrenCount(steps, d, c);
      ChildrenMember(steps, d, c);
      if c !in Names(steps) {
        DepsOfUnknown(steps, c);
      } else {
        DepsFromStep(steps, c);
        NoDupCount(Deps(steps, c), d);
      }
    }
    NoDupMultiset(Children(steps, d));
  }

  /** A duplicate-free sequence drawn from a set is no longer than the set. */
  lemma {:induction false} NoDupBound<T>(s: seq<T>, all: set<T>)
    requires NoDup(s) && forall x :: x in s ==> x in all
    ensures |s| <= |all|
  {
    if s != [] {
      var last := |s| - 1;
      NoDupBound(s[..last], all - {s[last]});
    }
  }

  lemma {:induction false} NamesCount(steps: seq<Step>)
    requires UniqueNames(steps)
    ensures |Names(steps)| == |steps|
  {
    if steps != [] {
      var last := |steps| - 1;
      NamesCount(steps[..last]);
      assert Names(steps) == Names(steps[..last]) + {steps[last].name} by {
        assert steps == steps[..last] + [steps[last]];
      }
      assert steps[last].name !in Names(steps[..last]);
    }
  }
}
