/**
 What unique names are needed for. Parsing does not check them, and the ordering algorithm runs on any
 list; with a name declared twice it either yields an order that is no permutation of the steps, or
 reports a cycle that may not be there.
 */
module DuplicateNames {
  import opened Steps
  import opened OrderSteps
  import opened OrderCorrect

  lemma {:induction false} FewerNames(steps: seq<Step>)
    ensures |Names(steps)| <= |steps|
    ensures |Names(steps)| == |steps| ==> UniqueNames(steps)
  {
    if steps != [] {
      var last := |steps| - 1;
      FewerNames(steps[..last]);
      assert steps == steps[..last] + [steps[last]];
      assert Names(steps) == Names(steps[..last]) + {steps[last].name};
      if |Names(steps)| == |steps| {
        NewName(steps, last);
      }
    }
  }

  lemma NewName(steps: seq<Step>, last: nat)
    requires last == |steps| - 1 && UniqueNames(steps[..last]) && steps[last].name !in Names(steps[..last])
    ensures UniqueNames(steps)
  {
    forall i, j | 0 <= i < j < |steps| ensures steps[i].name != steps[j].name {
      assert steps[..last][i] == steps[i] && steps[i] in steps[..last];
      if j < last {
        assert steps[..last][j] == steps[j];
      }
    }
  }

  /** An order the algorithm yields lists every step once, dependencies first, exactly when names are unique. */
  lemma GoodOrderIff(steps: seq<Step>)
    requires Order(steps).Ordered?
    ensures IsOrder(steps, Order(steps).order) <==> UniqueNames(steps)
  {
    hide Order;
    if UniqueNames(steps) {
      OrderIsCorrect(steps);
    } else if IsOrder(steps, Order(steps).order) {
      var order := Order(steps).order;
      SeqAsSet(order);
      assert (set n | n in order) == Names(steps);
      FewerNames(steps);
    }
  }

  /**
   The ordering does its job - it yields an order that lists every step once, dependencies first - exactly
   for the lists with unique names, known dependencies and no cycle.
   */
  lemma OrderingWorksIff(steps: seq<Step>)
    ensures (Order(steps).Ordered? && IsOrder(steps, Order(steps).order)) <==>
            UniqueNames(steps) && KnownDeps(steps) && !HasCycle(steps)
  {
    hide Order, IsOrder, HasCycle;
    if Order(steps).Ordered? {
      GoodOrderIff(steps);
    }
    if UniqueNames(steps) {
      OrderIsCorrect(steps);
    }
  }

  // ---------------------------------------------------------------- one more step declared

  lemma Snoc(steps: seq<Step>, s: Step, deg: map<string, int>)
    requires Names(steps + [s]) <= deg.Keys
    ensures Names(steps) <= deg.Keys && s.name in deg
    ensures Roots(steps + [s], deg) == Roots(steps, deg) + if deg[s.name] == 0 then [s.name] else []
    ensures InDegrees(steps + [s]) == InDegrees(steps)[s.name := |s.dependsOn|]
  {
    var all := steps + [s];
    assert all[..|all| - 1] == steps;
    assert forall x :: x in steps ==> x in all;
    assert s in all;
  }

  lemma SnocLinks(steps: seq<Step>, s: Step, d: string)
    ensures Children(steps + [s], d) == Children(steps, d) + Copies(s.name, s.dependsOn, d)
    ensures Deps(steps + [s], d) == if s.name == d then s.dependsOn else Deps(steps, d)
  {
    assert (steps + [s])[..|steps + [s]| - 1] == steps;
  }

  lemma OneDep(name: string, dep: string, d: string)
    ensures Copies(name, [dep], d) == (if dep == d then [name] else []) && Copies(name, [], d) == []
  {
    assert [dep][..0] == [];
  }

  // ---------------------------------------------------------------- a name declared twice, accepted

  /** Two steps of one name and nothing else are accepted, in an order that repeats the name. */
  lemma RepeatedNameAccepted(name: string)
    ensures Order([Step(name, [], 0), Step(name, [], 0)]) == Ordered([name, name])
  {
    hide Drain, Roots, Children, InDegrees, FirstUnknownStep;
    var a := Step(name, [], 0);
    var steps := [a, a];
    var deg := map[name := 0];
    PairFacts(a);
    UnknownMeansUnknown(steps);
    DrainOne(steps, Frontier(deg, [name, name]), [], Frontier(deg, [name]));
    DrainOne(steps, Frontier(deg, [name]), [name], Frontier(deg, []));
    DrainNone(steps, Frontier(deg, []), [name] + [name]);
    assert [] + [name] == [name] && [name] + [name] == [name, name];
  }

  lemma PairFacts(a: Step)
    requires a.dependsOn == []
    ensures var steps := [a, a];
            && Names(steps) == {a.name} && KnownDeps(steps) && InDegrees(steps) == map[a.name := 0]
            && Roots(steps, InDegrees(steps)) == [a.name, a.name] && Children(steps, a.name) == []
  {
    hide Roots, Children, InDegrees, Names, KnownDeps, Deps;
    PairNames(a);
    PairCounts(a, map[a.name := 0]);
    PairLinks(a);
  }

  lemma PairNames(a: Step)
    requires a.dependsOn == []
    ensures Names([a]) == {a.name} && Names([a, a]) == {a.name} && KnownDeps([a, a])
  {
    assert a in [a] && a in [a, a];
  }

  lemma PairCounts(a: Step, deg: map<string, int>)
    requires a.dependsOn == [] && deg == map[a.name := 0]
    ensures InDegrees([a, a]) == deg && Roots([a, a], deg) == [a.name, a.name] && Names([a, a]) <= deg.Keys
  {
    hide Roots, Children, InDegrees, Names;
    PairNames(a);
    assert [a] + [a] == [a, a] && [] + [a] == [a];
    Nothing(deg, a.name);
    Snoc([a], a, deg);
    Snoc([], a, deg);
  }

  lemma PairLinks(a: Step)
    requires a.dependsOn == []
    ensures Children([a, a], a.name) == []
  {
    hide Children, Copies, Deps;
    assert [a] + [a] == [a, a] && [] + [a] == [a];
    SnocLinks([a], a, a.name);
    SnocLinks([], a, a.name);
    Nothing(map[], a.name);
    OneDep(a.name, a.name, a.name);
  }

  lemma Nothing(deg: map<string, int>, d: string)
    ensures Roots([], deg) == [] && InDegrees([]) == map[] && Children([], d) == [] && Deps([], d) == []
  {
  }

  // ---------------------------------------------------------------- a name declared twice, refused

  function Twice(): seq<Step> {
    [Step("a", [], 0), Step("b", ["a"], 0), Step("b", ["a"], 0)]
  }

  /** A dependent declared twice is reported as a cycle, though there is none. */
  lemma RepeatedNameRefused()
    ensures KnownDeps(Twice()) && !HasCycle(Twice())
    ensures Order(Twice()) == Rejected(CycleDetected)
  {
    hide Drain, Roots, Children, InDegrees, FirstUnknownStep;
    TwiceNames();
    TwiceGraph();
    TwiceAcyclic();
    TwiceDrains();
    UnknownMeansUnknown(Twice());
  }

  lemma TwiceNames()
    ensures Names(Twice()) == {"a", "b"} && KnownDeps(Twice())
  {
    var steps := Twice();
    assert steps[0] in steps && steps[1] in steps;
  }

  lemma TwiceParts(x: Step, y: Step)
    requires x == Step("a", [], 0) && y == Step("b", ["a"], 0)
    ensures [] + [x] == [x] && [x] + [y] == [x, y] && [x, y] + [y] == Twice()
    ensures Names([x]) == {"a"} && Names([x, y]) == {"a", "b"}
  {
    assert x in [x] && x in [x, y] && y in [x, y];
  }

  lemma TwiceDegrees()
    ensures InDegrees(Twice()) == map["a" := 0, "b" := 1] && Names(Twice()) <= InDegrees(Twice()).Keys
    ensures Roots(Twice(), InDegrees(Twice())) == ["a"]
  {
    hide Roots, Children, InDegrees, Deps, Copies, Names;
    var x, y := Step("a", [], 0), Step("b", ["a"], 0);
    var deg := map["a" := 0, "b" := 1];
    TwiceParts(x, y);
    TwiceNames();
    Nothing(deg, "a");
    Snoc([x, y], y, deg);
    Snoc([x], y, deg);
    Snoc([], x, deg);
  }

  lemma TwiceLinks(d: string)
    requires d == "a" || d == "b"
    ensures Children(Twice(), d) == if d == "a" then ["b", "b"] else []
    ensures Deps(Twice(), d) == if d == "a" then [] else ["a"]
  {
    hide Roots, Children, InDegrees, Deps, Copies, Names;
    var x, y := Step("a", [], 0), Step("b", ["a"], 0);
    TwiceParts(x, y);
    Nothing(map[], d);
    SnocLinks([], x, d);
    SnocLinks([x], y, d);
    SnocLinks([x, y], y, d);
    OneDep("b", "a", d);
    OneDep("a", "a", d);
    assert ["b"] + ["b"] == ["b", "b"];
  }

  lemma TwiceGraph()
    ensures InDegrees(Twice()) == map["a" := 0, "b" := 1] && Names(Twice()) <= InDegrees(Twice()).Keys
    ensures Roots(Twice(), InDegrees(Twice())) == ["a"]
    ensures Children(Twice(), "a") == ["b", "b"] && Children(Twice(), "b") == []
    ensures Deps(Twice(), "a") == [] && Deps(Twice(), "b") == ["a"]
  {
    hide Roots, Children, InDegrees, Deps, Names;
    TwiceDegrees();
    TwiceLinks("a");
    TwiceLinks("b");
  }

  lemma TwiceAcyclic()
    ensures !HasCycle(Twice())
  {
    hide Deps;
    TwiceGraph();
    TwiceNames();
    if HasCycle(Twice()) {
      var p :| |p| >= 2 && DepPath(Twice(), p) && p[0] == p[|p| - 1];
      PathEnd(p);
    }
  }

  lemma PathEnd(p: seq<string>)
    requires |p| >= 2 && DepPath(Twice(), p) && Names(Twice()) == {"a", "b"}
    requires Deps(Twice(), "a") == [] && Deps(Twice(), "b") == ["a"]
    ensures p[0] == "b" && p[|p| - 1] == "a"
  {
    hide Deps;
    assert p[0] in Names(Twice()) && p[0 + 1] in Deps(Twice(), p[0]);
    var i := |p| - 2;
    assert p[i] in Names(Twice()) && p[i + 1] in Deps(Twice(), p[i]);
  }

  lemma TwiceDrains()
    ensures InDegrees(Twice()) == map["a" := 0, "b" := 1] && Names(Twice()) <= InDegrees(Twice()).Keys
    ensures Drain(Twice(), Frontier(InDegrees(Twice()), ["a"]), []) == ["a", "b"]
  {
    hide Drain, Roots, Children, InDegrees;
    var steps := Twice();
    var deg := map["a" := 0, "b" := 1];
    TwiceGraph();
    TwiceRelax(deg);
    var g := Frontier(deg["b" := -1], ["b"]);
    DrainOne(steps, Frontier(deg, ["a"]), [], g);
    DrainOne(steps, g, ["a"], Frontier(g.deg, []));
    DrainNone(steps, Frontier(g.deg, []), ["a"] + ["b"]);
    assert [] + ["a"] == ["a"] && ["a"] + ["b"] == ["a", "b"];
  }

  lemma TwiceRelax(deg: map<string, int>)
    requires deg == map["a" := 0, "b" := 1]
    ensures Relax(["b", "b"], Frontier(deg, [])) == Frontier(deg["b" := -1], ["b"])
  {
    var one := Frontier(deg["b" := 0], ["b"]);
    RelaxStep(["b", "b"], Frontier(deg, []));
    RelaxStep(["b"], one);
    assert ["b", "b"][1..] == ["b"] && ["b"][1..] == [];
    assert deg["b" := 0]["b" := -1] == deg["b" := -1];
  }
}
