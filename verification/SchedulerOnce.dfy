/**
 How often a step is launched. When the sweep is over before any goroutine moves, every step that is
 not carried over is launched exactly once. The sweep of the code takes no lock, so goroutines may
 complete while it is still reading, and then a step may be launched a second time. The condition
 under which no interleaving does that is exact, and can be read off the declared steps.
 */
module SchedulerOnce {
  import opened Steps
  import opened Scheduler
  import opened SchedulerInvariant
  import opened SchedulerConfluence
  import opened SchedulerTermination

  // ---------------------------------------------------------------- repeated dependencies

  /** No child is listed twice under one step. */
  ghost predicate ChildrenDistinct(p: Plan) {
    forall n :: n in p.children ==> NoDup(p.children[n])
  }

  /** `e` waits for `d`, directly or through other steps, none of which is carried over. */
  ghost predicate DependsOn(p: Plan, e: string, d: string)
    requires e in p.pos
    decreases p.pos[e]
  {
    && e !in p.carry && e in p.deps
    && (d in p.deps[e] || exists m :: m in p.deps[e] && m in p.pos && p.pos[m] < p.pos[e] && DependsOn(p, m, d))
  }

  /** Another dependency of `n` waits for `d`, so that `d` is never the last one to get a status. */
  ghost predicate Delayed(p: Plan, n: string, d: string) {
    n in p.deps && exists e :: e in p.deps[n] && e in p.pos && e != d && DependsOn(p, e, d)
  }

  /** `n` lists `d` more than once, and may wait for it last; what is carried over does not count. */
  ghost predicate Repeats(p: Plan, n: string, d: string) {
    n in p.pos && d in p.children && n !in p.carry && d !in p.carry && multiset(p.children[d])[n] >= 2 && !Delayed(p, n, d)
  }

  ghost predicate NoRepeats(p: Plan) {
    forall n, d :: !Repeats(p, n, d)
  }

  /** Only exempt steps repeat a dependency that can be their last one. */
  ghost predicate RepeatsExempt(p: Plan, exempt: set<string>) {
    forall n, d :: Repeats(p, n, d) ==> n in exempt
  }

  lemma NoneExempt(p: Plan)
    requires NoRepeats(p)
    ensures RepeatsExempt(p, {})
  {
    hide Repeats;
  }

  lemma DistinctNoRepeats(p: Plan)
    requires ChildrenDistinct(p)
    ensures NoRepeats(p)
  {
    hide Delayed;
    forall n, d | n in p.pos && d in p.children ensures multiset(p.children[d])[n] <= 1 {
      if n in p.children[d] {
        NoDupCount(p.children[d], n);
      } else {
        assert n !in multiset(p.children[d]);
      }
    }
  }

  // ---------------------------------------------------------------- single launches

  /** No step is launched twice, `exempt` ones aside. */
  ghost predicate NoDoubleLaunch(s: State, exempt: set<string>) {
    forall x, y :: 0 <= x < y < |s.gos| && s.gos[x].step == s.gos[y].step ==> s.gos[x].step in exempt
  }

  /** Launches that are about to happen are distinct, and have not happened yet. */
  ghost predicate PendingFresh(s: State, exempt: set<string>) {
    PendingDistinct(s, exempt) && PendingUnlaunched(s, exempt) && PendingDisjoint(s)
  }

  /** Nothing but exempt steps is there twice. */
  ghost predicate NoDupBut(names: seq<string>, exempt: set<string>) {
    forall i, j :: 0 <= i < j < |names| && names[i] == names[j] ==> names[i] in exempt
  }

  ghost predicate PendingDistinct(s: State, exempt: set<string>) {
    forall k :: 0 <= k < |s.gos| ==> NoDupBut(s.gos[k].Pending(), exempt)
  }

  ghost predicate PendingUnlaunched(s: State, exempt: set<string>) {
    forall k, x, c :: 0 <= k < |s.gos| && 0 <= x < |s.gos| && c in s.gos[k].Pending() && s.gos[x].step == c ==> c in exempt
  }

  ghost predicate PendingDisjoint(s: State) {
    forall k, x, c :: 0 <= k < |s.gos| && 0 <= x < |s.gos| && k != x && c in s.gos[k].Pending() ==> c !in s.gos[x].Pending()
  }

  /** A step under way or about to be launched has no result yet. */
  ghost predicate ResultsFresh(s: State, exempt: set<string>) {
    && (forall k :: 0 <= k < |s.gos| && !s.gos[k].Recorded() && s.gos[k].step in s.results ==> s.gos[k].step in exempt)
    && (forall k, c :: 0 <= k < |s.gos| && c in s.gos[k].Pending() && c in s.results ==> c in exempt)
  }

  ghost predicate Once(s: State, exempt: set<string>) {
    NoDoubleLaunch(s, exempt) && PendingFresh(s, exempt) && ResultsFresh(s, exempt)
  }

  /** Only steps without children may be exempt: nothing depends on what becomes of them. */
  ghost predicate OnlyLeaves(p: Plan, exempt: set<string>) {
    forall n :: n in exempt && n in p.children ==> p.children[n] == []
  }

  // ---------------------------------------------------------------- one transition at a time

  /** A transition other than a completion, a child launch or a sweep launch keeps steps and pending lists. */
  lemma MoveOnce(s: State, k: nat, phase: Phase, exempt: set<string>)
    requires k < |s.gos| && Once(s, exempt) && s.gos[k].Pending() == [] && Go(s.gos[k].step, phase).Pending() == []
    requires s.gos[k].Recorded() <==> Go(s.gos[k].step, phase).Recorded()
    ensures Once(s.At(k, phase), exempt)
  {
    var t := s.At(k, phase);
    assert forall x :: 0 <= x < |s.gos| ==> t.gos[x].step == s.gos[x].step && t.gos[x].Pending() == s.gos[x].Pending();
    assert forall x :: 0 <= x < |s.gos| ==> (t.gos[x].Recorded() <==> s.gos[x].Recorded());
    assert t.results == s.results;
  }

  lemma SpawnOnce(s: State, n: string, exempt: set<string>)
    requires Once(s, exempt) && (n in exempt || (!s.Launched(n) && n !in s.results))
    ensures Once(s.Spawn(n), exempt)
  {
    var t := s.Spawn(n);
    assert forall x :: 0 <= x < |s.gos| ==> t.gos[x] == s.gos[x];
    assert t.gos[|s.gos|].Pending() == [];
    forall k, c | 0 <= k < |s.gos| && c in s.gos[k].Pending() ensures c != n || n in exempt {
    }
  }

  /** `t` is `s` after goroutine `k` launched the first of its pending children. */
  ghost predicate IsLaunch(s: State, t: State, k: nat) {
    && k < |s.gos| && |t.gos| == |s.gos| + 1 && s.gos[k].Pending() != [] && s.gos[k].Recorded() && t.gos[k].Recorded()
    && t.gos[|s.gos|] == Go(s.gos[k].Pending()[0], Waiting)
    && t.gos[k].Pending() == s.gos[k].Pending()[1..] && t.gos[k].step == s.gos[k].step
    && (forall x :: 0 <= x < |s.gos| && x != k ==> t.gos[x] == s.gos[x])
    && t.results == s.results
  }

  lemma LaunchOnce(p: Plan, s: State, k: nat, exempt: set<string>)
    requires Enabled(p, s, LaunchChild(k)) && Once(s, exempt)
    ensures Once(Apply(p, s, LaunchChild(k)), exempt)
  {
    hide Once;
    var t := Apply(p, s, LaunchChild(k));
    assert IsLaunch(s, t, k);
    LaunchKeeps(s, t, k, exempt);
    LaunchSingle(s, t, k, exempt);
    LaunchPendingFresh(s, t, k, exempt);
    LaunchResultsFresh(s, t, k, exempt);
    assert Once(t, exempt) by {
      OnceParts(t, exempt);
    }
  }

  lemma OnceParts(s: State, exempt: set<string>)
    requires NoDoubleLaunch(s, exempt) && PendingFresh(s, exempt) && ResultsFresh(s, exempt)
    ensures Once(s, exempt)
  {
  }

  lemma LaunchKeeps(s: State, t: State, k: nat, exempt: set<string>)
    requires IsLaunch(s, t, k) && Once(s, exempt)
    ensures NoDoubleLaunch(s, exempt) && PendingFresh(s, exempt) && ResultsFresh(s, exempt)
    ensures forall x :: 0 <= x < |s.gos| ==> t.gos[x].step == s.gos[x].step
    ensures forall x, c :: 0 <= x < |s.gos| && c in t.gos[x].Pending() ==> c in s.gos[x].Pending()
    ensures t.gos[|s.gos|].Pending() == []
  {
  }

  lemma LaunchSingle(s: State, t: State, k: nat, exempt: set<string>)
    requires IsLaunch(s, t, k) && NoDoubleLaunch(s, exempt) && PendingFresh(s, exempt)
    requires forall x :: 0 <= x < |s.gos| ==> t.gos[x].step == s.gos[x].step
    ensures NoDoubleLaunch(t, exempt)
  {
    assert s.gos[k].Pending()[0] in s.gos[k].Pending();
  }

  lemma LaunchPendingFresh(s: State, t: State, k: nat, exempt: set<string>)
    requires IsLaunch(s, t, k) && PendingFresh(s, exempt)
    requires forall x :: 0 <= x < |s.gos| ==> t.gos[x].step == s.gos[x].step
    requires forall x, c :: 0 <= x < |s.gos| && c in t.gos[x].Pending() ==> c in s.gos[x].Pending()
    requires t.gos[|s.gos|].Pending() == []
    ensures PendingFresh(t, exempt)
  {
    hide PendingDistinct, PendingUnlaunched, PendingDisjoint;
    LaunchDistinct(s, t, k, exempt);
    LaunchUnlaunched(s, t, k, exempt);
    LaunchDisjoint(s, t);
  }

  lemma LaunchDistinct(s: State, t: State, k: nat, exempt: set<string>)
    requires IsLaunch(s, t, k) && PendingDistinct(s, exempt) && t.gos[|s.gos|].Pending() == []
    ensures PendingDistinct(t, exempt)
  {
  }

  lemma LaunchUnlaunched(s: State, t: State, k: nat, exempt: set<string>)
    requires IsLaunch(s, t, k) && PendingDistinct(s, exempt) && PendingUnlaunched(s, exempt) && PendingDisjoint(s)
    requires forall x :: 0 <= x < |s.gos| ==> t.gos[x].step == s.gos[x].step
    requires forall x, c :: 0 <= x < |s.gos| && c in t.gos[x].Pending() ==> c in s.gos[x].Pending()
    requires t.gos[|s.gos|].Pending() == []
    ensures PendingUnlaunched(t, exempt)
  {
    var head := s.gos[k].Pending()[0];
    assert head in s.gos[k].Pending();
    forall x, c | 0 <= x < |s.gos| && c in t.gos[x].Pending() ensures c != head || c in exempt {
      if x == k {
        assert NoDupBut(s.gos[k].Pending(), exempt);
      }
    }
  }

  lemma LaunchDisjoint(s: State, t: State)
    requires PendingDisjoint(s) && |t.gos| == |s.gos| + 1
    requires forall x, c :: 0 <= x < |s.gos| && c in t.gos[x].Pending() ==> c in s.gos[x].Pending()
    requires t.gos[|s.gos|].Pending() == []
    ensures PendingDisjoint(t)
  {
  }

  lemma LaunchResultsFresh(s: State, t: State, k: nat, exempt: set<string>)
    requires IsLaunch(s, t, k) && ResultsFresh(s, exempt)
    requires forall x :: 0 <= x < |s.gos| ==> t.gos[x].step == s.gos[x].step
    requires forall x, c :: 0 <= x < |s.gos| && c in t.gos[x].Pending() ==> c in s.gos[x].Pending()
    requires t.gos[|s.gos|].Pending() == []
    ensures ResultsFresh(t, exempt)
  {
    assert s.gos[k].Pending()[0] in s.gos[k].Pending();
  }

  /** The children a completion makes ready were never launched before, as they waited for it. */
  lemma FinishOnce(p: Plan, s: State, k: nat, res: StepResult, exempt: set<string>)
    requires Inv(p, s) && NoCarriedLaunch(p, s) && RepeatsExempt(p, exempt) && p.Closed() && OnlyLeaves(p, exempt)
    requires Enabled(p, s, Finish(k, res)) && Once(s, exempt)
    ensures Once(Apply(p, s, Finish(k, res)), exempt)
  {
    hide RepeatsExempt, Inv, Once, Plan.Closed, NoCarriedLaunch;
    var t := Apply(p, s, Finish(k, res));
    var n := s.gos[k].step;
    var ready := t.gos[k].Pending();
    if n in exempt {
      assert p.children[n] == [];
      assert ready == [];
    } else {
      FirstFinish(s, k, exempt);
      ReadyIsNew(p, s, k, res);
      ReadyDistinct(p, s, k, res, exempt);
    }
    FinishFresh(s, t, k, res, ready, exempt);
  }

  lemma FirstFinish(s: State, k: nat, exempt: set<string>)
    requires Once(s, exempt) && k < |s.gos| && !s.gos[k].Recorded() && s.gos[k].step !in exempt
    ensures s.gos[k].step !in s.results
  {
  }

  /** The first completion of a step makes no child ready twice, exempt ones aside. */
  lemma ReadyDistinct(p: Plan, s: State, k: nat, res: StepResult, exempt: set<string>)
    requires Inv(p, s) && NoCarriedLaunch(p, s) && RepeatsExempt(p, exempt) && p.Closed()
    requires k < |s.gos| && s.gos[k].step !in s.results
    requires s.gos[k].step in p.children && forall c :: c in p.children[s.gos[k].step] ==> c in p.deps
    ensures NoDupBut(Ready(p.children[s.gos[k].step], p.deps, s.results[s.gos[k].step := res]), exempt)
  {
    hide RepeatsExempt, Inv, NoCarriedLaunch, Plan.Closed, Ready, DepsSet;
    var n := s.gos[k].step;
    var results := s.results[n := res];
    var ready := Ready(p.children[n], p.deps, results);
    forall i, j | 0 <= i < j < |ready| && ready[i] == ready[j] ensures ready[i] in exempt {
      SeenTwice(ready, i, j);
      if ready[i] !in exempt {
        ReadyOnce(p, s, k, ready[i], results, exempt);
      }
    }
  }

  lemma SeenTwice(names: seq<string>, i: nat, j: nat)
    requires i < j < |names| && names[i] == names[j]
    ensures multiset(names)[names[i]] >= 2
  {
    assert names == names[..j] + names[j..];
    assert names[i] in names[..j] && names[j] in names[j..];
    assert names[i] in multiset(names[..j]) && names[j] in multiset(names[j..]);
  }

  lemma ReadyOnce(p: Plan, s: State, k: nat, c: string, results: map<string, StepResult>, exempt: set<string>)
    requires Inv(p, s) && NoCarriedLaunch(p, s) && RepeatsExempt(p, exempt) && c !in exempt && p.Closed()
    requires k < |s.gos| && s.gos[k].step !in s.results && results.Keys == s.results.Keys + {s.gos[k].step}
    requires s.gos[k].step in p.children && forall e :: e in p.children[s.gos[k].step] ==> e in p.deps
    requires c in Ready(p.children[s.gos[k].step], p.deps, results)
    ensures multiset(Ready(p.children[s.gos[k].step], p.deps, results))[c] == 1
  {
    hide RepeatsExempt, Inv, NoCarriedLaunch, Plan.Closed, Ready;
    var cs := p.children[s.gos[k].step];
    ReadyMember(cs, p.deps, results);
    ReadyCount(cs, p.deps, results, c);
    assert c in multiset(Ready(cs, p.deps, results));
    if multiset(cs)[c] >= 2 {
      RepeatDelayed(p, s, k, c, exempt);
    }
  }

  /** A child listed twice cannot be ready when the step it is listed under completes first. */
  lemma RepeatDelayed(p: Plan, s: State, k: nat, c: string, exempt: set<string>)
    requires Inv(p, s) && NoCarriedLaunch(p, s) && RepeatsExempt(p, exempt) && c !in exempt && p.Closed()
    requires k < |s.gos| && s.gos[k].step !in s.results && s.gos[k].step in p.children && c in p.children[s.gos[k].step]
    requires multiset(p.children[s.gos[k].step])[c] >= 2
    ensures c in p.deps && exists e :: e in p.deps[c] && e != s.gos[k].step && e !in s.results
  {
    hide RepeatsExempt, Inv, NoCarriedLaunch, Delayed;
    var d := s.gos[k].step;
    BothFresh(p, s, k, c);
    NoRepeatAt(p, c, d, exempt);
    var e := DelayedBy(p, c, d);
    WaitsUnset(p, s, e, d);
  }

  lemma BothFresh(p: Plan, s: State, k: nat, c: string)
    requires Inv(p, s) && NoCarriedLaunch(p, s) && p.Closed() && k < |s.gos|
    requires s.gos[k].step in p.children && c in p.children[s.gos[k].step]
    ensures c in p.pos && c !in p.carry && s.gos[k].step !in p.carry && s.gos[k].step in p.pos
  {
    hide LaunchedAfterDeps, ResultsJustified, SweepInv, Covered, SlotsBounded, Plan.Sorted;
  }

  lemma NoRepeatAt(p: Plan, n: string, d: string, exempt: set<string>)
    requires RepeatsExempt(p, exempt) && n !in exempt
    requires n in p.pos && d in p.children && n !in p.carry && d !in p.carry && multiset(p.children[d])[n] >= 2
    ensures Delayed(p, n, d)
  {
    hide Delayed;
    assert !Repeats(p, n, d);
  }

  lemma DelayedBy(p: Plan, n: string, d: string) returns (e: string)
    requires Delayed(p, n, d)
    ensures n in p.deps && e in p.deps[n] && e in p.pos && e != d && DependsOn(p, e, d)
  {
    hide DependsOn;
    e :| e in p.deps[n] && e in p.pos && e != d && DependsOn(p, e, d);
  }

  /** What waits for an unset step is unset. */
  lemma {:induction false} WaitsUnset(p: Plan, s: State, e: string, d: string)
    requires Inv(p, s) && e in p.pos && DependsOn(p, e, d) && d !in s.results
    ensures e !in s.results
    decreases p.pos[e]
  {
    hide Inv;
    var m := WaitsFor(p, e, d);
    if m != d {
      WaitsUnset(p, s, m, d);
    }
    UnsetDep(p, s, e, m);
  }

  lemma WaitsFor(p: Plan, e: string, d: string) returns (m: string)
    requires e in p.pos && DependsOn(p, e, d)
    ensures e !in p.carry && e in p.deps && m in p.deps[e]
    ensures m == d || (m in p.pos && p.pos[m] < p.pos[e] && DependsOn(p, m, d))
  {
    if d in p.deps[e] {
      m := d;
    } else {
      m :| m in p.deps[e] && m in p.pos && p.pos[m] < p.pos[e] && DependsOn(p, m, d);
    }
  }

  lemma UnsetDep(p: Plan, s: State, e: string, m: string)
    requires Inv(p, s) && e in p.deps && m in p.deps[e] && m !in s.results && e !in p.carry
    ensures e !in s.results
  {
    hide Plan.Valid, NamesKnown, ProgressKnown, SweepInv, Covered, SlotsBounded;
    if e in s.results {
      SettledDeps(p, s, e);
    }
  }

  lemma ReadyIsNew(p: Plan, s: State, k: nat, res: StepResult)
    requires Inv(p, s) && NoCarriedLaunch(p, s) && p.Closed()
    requires Enabled(p, s, Finish(k, res)) && s.gos[k].step !in s.results
    ensures forall c :: c in Apply(p, s, Finish(k, res)).gos[k].Pending() ==>
              !s.Launched(c) && c !in s.results && c != s.gos[k].step
  {
    var n := s.gos[k].step;
    var t := Apply(p, s, Finish(k, res));
    ReadyMember(p.children[n], p.deps, t.results);
    forall c | c in t.gos[k].Pending() ensures !s.Launched(c) && c !in s.results && c != n {
      NewChild(p, s, n, c);
    }
  }

  lemma NewChild(p: Plan, s: State, n: string, c: string)
    requires p.Valid() && p.Closed() && LaunchedAfterDeps(p, s) && ResultsJustified(p, s)
    requires n in p.pos && n !in s.results && n !in p.carry && c in p.children[n]
    ensures !s.Launched(c) && c !in s.results && c != n
  {
    assert n in p.deps[c];
    assert c !in p.carry;
    forall x | 0 <= x < |s.gos| ensures s.gos[x].step != c && c !in s.gos[x].Pending() {
      assert !DepsSet(p.deps[c], s.results);
    }
    assert !RecordedBy(s, c);
  }

  /** `t` is `s` after goroutine `k` recorded its result and found `ready`. */
  ghost predicate IsFinish(s: State, t: State, k: nat, res: StepResult, ready: seq<string>) {
    && k < |s.gos| && s.gos[k].Pending() == []
    && t.gos == s.gos[k := Go(s.gos[k].step, Launching(ready))] && t.results == s.results[s.gos[k].step := res]
  }

  lemma FinishFresh(s: State, t: State, k: nat, res: StepResult, ready: seq<string>, exempt: set<string>)
    requires Once(s, exempt) && IsFinish(s, t, k, res, ready) && NoDupBut(ready, exempt)
    requires forall c :: c in ready ==> !s.Launched(c) && c !in s.results && c != s.gos[k].step
    ensures Once(t, exempt)
  {
    hide NoDoubleLaunch, PendingDistinct, PendingDisjoint, PendingUnlaunched, ResultsFresh, State.Launched, IsFinish;
    FinishSingle(s, t, k, res, ready, exempt);
    FinishPending(s, t, k, res, ready, exempt);
    FinishResults(s, t, k, res, ready, exempt);
  }

  lemma FinishSingle(s: State, t: State, k: nat, res: StepResult, ready: seq<string>, exempt: set<string>)
    requires NoDoubleLaunch(s, exempt) && IsFinish(s, t, k, res, ready)
    ensures NoDoubleLaunch(t, exempt)
  {
    assert forall x :: 0 <= x < |s.gos| ==> t.gos[x].step == s.gos[x].step;
  }

  lemma FinishPending(s: State, t: State, k: nat, res: StepResult, ready: seq<string>, exempt: set<string>)
    requires PendingFresh(s, exempt) && IsFinish(s, t, k, res, ready) && NoDupBut(ready, exempt)
    requires forall c :: c in ready ==> !s.Launched(c)
    ensures PendingFresh(t, exempt)
  {
    assert forall x :: 0 <= x < |s.gos| ==> t.gos[x].step == s.gos[x].step;
    assert forall x :: 0 <= x < |s.gos| && x != k ==> t.gos[x] == s.gos[x];
    forall x, c | 0 <= x < |s.gos| && c in ready ensures s.gos[x].step != c && c !in s.gos[x].Pending() {
    }
  }

  lemma FinishResults(s: State, t: State, k: nat, res: StepResult, ready: seq<string>, exempt: set<string>)
    requires ResultsFresh(s, exempt) && PendingUnlaunched(s, exempt) && NoDoubleLaunch(s, exempt) && IsFinish(s, t, k, res, ready)
    requires forall c :: c in ready ==> c !in s.results && c != s.gos[k].step
    ensures ResultsFresh(t, exempt)
  {
    assert forall x :: 0 <= x < |s.gos| ==> t.gos[x].step == s.gos[x].step;
    assert forall x :: 0 <= x < |s.gos| && x != k ==> t.gos[x] == s.gos[x];
    forall x, c | 0 <= x < |s.gos| && x != k && c in s.gos[x].Pending() ensures c != s.gos[k].step || c in exempt {
    }
  }

  /** What the sweep launches, if anything, is exempt or not a repetition. */
  ghost predicate FreshSweep(p: Plan, s: State, a: Action, exempt: set<string>)
    requires Enabled(p, s, a)
  {
    a.Sweep? && |Apply(p, s, a).gos| > |s.gos| ==> p.listing[s.i] in exempt || !s.Launched(p.listing[s.i])
  }

  /** Every transition keeps launches single, exempt ones aside, provided the sweep launches nothing else again. */
  lemma OnceStep(p: Plan, s: State, a: Action, exempt: set<string>)
    requires Inv(p, s) && NoCarriedLaunch(p, s) && RepeatsExempt(p, exempt) && p.Closed() && OnlyLeaves(p, exempt) && Once(s, exempt)
    requires Enabled(p, s, a)
    requires FreshSweep(p, s, a, exempt)
    ensures Once(Apply(p, s, a), exempt)
  {
    hide NoCarriedLaunch, RepeatsExempt, Plan.Closed, OnlyLeaves, Once, NamesKnown, LaunchedAfterDeps, SweepInv, Covered, SlotsBounded, Plan.Valid;
    hide ResultsJustified, Ready, DepsSucceeded;
    match a
    case Finish(k, res) => FinishOnce(p, s, k, res, exempt);
    case LaunchChild(k) => LaunchOnce(p, s, k, exempt);
    case Sweep =>
      SweepOnce(p, s, exempt);
    case CancelContext => SameLaunches(s, Apply(p, s, a), exempt);
    case _ => PhaseOnce(p, s, a, exempt);
  }

  lemma SameLaunches(s: State, t: State, exempt: set<string>)
    requires Once(s, exempt) && t.gos == s.gos && t.results == s.results
    ensures Once(t, exempt)
  {
  }

  lemma PhaseOnce(p: Plan, s: State, a: Action, exempt: set<string>)
    requires Enabled(p, s, a) && (a.Acquire? || a.Decide? || a.Proceed? || a.Release?) && Once(s, exempt)
    ensures Once(Apply(p, s, a), exempt)
  {
    hide Once, DepsSucceeded;
    var t := Apply(p, s, a);
    MoveOnce(s, a.k, t.gos[a.k].phase, exempt);
    SameLaunches(s.At(a.k, t.gos[a.k].phase), t, exempt);
  }

  lemma SweepOnce(p: Plan, s: State, exempt: set<string>)
    requires ResultsJustified(p, s) && Once(s, exempt) && Enabled(p, s, Sweep)
    requires |Apply(p, s, Sweep).gos| > |s.gos| ==> p.listing[s.i] in exempt || !s.Launched(p.listing[s.i])
    ensures Once(Apply(p, s, Sweep), exempt)
  {
    hide Once;
    var t := Apply(p, s, Sweep);
    var n := p.listing[s.i];
    if |t.gos| > |s.gos| {
      if n !in exempt {
        NotRecorded(p, s, n);
      }
      SpawnOnce(s, n, exempt);
      SameLaunches(s.Spawn(n), t, exempt);
    } else {
      SameLaunches(s, t, exempt);
    }
  }

  lemma NotRecorded(p: Plan, s: State, n: string)
    requires ResultsJustified(p, s) && !s.Launched(n) && n !in p.carry
    ensures n !in s.results
  {
    assert !RecordedBy(s, n);
  }

  lemma SettledDeps(p: Plan, s: State, n: string)
    requires LaunchedAfterDeps(p, s) && ResultsJustified(p, s) && n in s.results && n !in p.carry
    ensures n in p.deps && DepsSet(p.deps[n], s.results)
  {
    assert RecordedBy(s, n);
  }

  // ---------------------------------------------------------------- the atomic sweep

  /** The sweep is over before any goroutine moves. */
  ghost predicate NextAtomic(p: Plan, s: State, t: State) {
    exists a :: Enabled(p, s, a) && (s.i < |p.listing| ==> a.Sweep? || a.CancelContext?) && t == Apply(p, s, a)
  }

  ghost predicate IsAtomicRun(p: Plan, run: seq<State>) {
    run != [] && run[0] == Init(p) && forall x :: 0 <= x < |run| - 1 ==> NextAtomic(p, run[x], run[x + 1])
  }

  /** While the sweep lasts, the goroutines are those of the steps swept so far, all waiting. */
  ghost predicate SweepAlone(p: Plan, s: State) {
    s.i < |p.listing| ==>
      forall k :: 0 <= k < |s.gos| ==> s.gos[k].phase == Waiting && Swept(p, s.i, s.gos[k].step)
  }

  /** `n` is among the first `i` declared steps. */
  ghost predicate Swept(p: Plan, i: nat, n: string) {
    exists x :: 0 <= x < i && x < |p.listing| && p.listing[x] == n
  }

  lemma SweepAloneStep(p: Plan, s: State, a: Action)
    requires Enabled(p, s, a) && SweepAlone(p, s) && (s.i < |p.listing| ==> a.Sweep? || a.CancelContext?)
    ensures SweepAlone(p, Apply(p, s, a))
  {
    hide Ready, DepsSucceeded;
    var t := Apply(p, s, a);
    SweepMoves(p, s, a);
    if t.i < |p.listing| {
      forall k | 0 <= k < |t.gos|
        ensures t.gos[k].phase == Waiting && Swept(p, t.i, t.gos[k].step)
      {
        if k < |s.gos| {
          assert t.gos[k] == s.gos[k];
        } else {
          assert p.listing[s.i] == t.gos[k].step;
        }
      }
    }
  }

  lemma SweepAloneFresh(p: Plan, s: State)
    requires p.Keyed() && p.Sorted() && SweepAlone(p, s) && s.i < |p.listing|
    ensures !s.Launched(p.listing[s.i])
  {
    forall k | 0 <= k < |s.gos| ensures s.gos[k].step != p.listing[s.i] && s.gos[k].Pending() == [] {
      assert Swept(p, s.i, s.gos[k].step);
    }
  }

  ghost predicate OnceInv(p: Plan, s: State, exempt: set<string>) {
    Inv(p, s) && NoCarriedLaunch(p, s) && Once(s, exempt)
  }

  lemma OnceInvStep(p: Plan, s: State, a: Action, exempt: set<string>)
    requires OnceInv(p, s, exempt) && RepeatsExempt(p, exempt) && p.Closed() && OnlyLeaves(p, exempt) && Enabled(p, s, a)
    requires FreshSweep(p, s, a, exempt)
    ensures OnceInv(p, Apply(p, s, a), exempt)
  {
    hide Inv, NoCarriedLaunch, Once, Apply, Enabled, RepeatsExempt, Plan.Closed, OnlyLeaves, FreshSweep;
    StepInv(p, s, a);
    NoCarriedFromInv(p, s, a);
    OnceStep(p, s, a, exempt);
  }

  lemma InitOnce(p: Plan, exempt: set<string>)
    requires p.Valid()
    ensures OnceInv(p, Init(p), exempt)
  {
    hide Inv;
    InitInv(p);
    InitNoCarried(p);
  }

  lemma {:induction false} AtomicRunOnce(p: Plan, run: seq<State>, x: nat)
    requires p.Valid() && p.Closed() && NoRepeats(p) && IsAtomicRun(p, run) && x < |run|
    ensures OnceInv(p, run[x], {}) && SweepAlone(p, run[x])
  {
    hide OnceInv, SweepAlone, NoRepeats, RepeatsExempt, Plan.Closed, Apply, Enabled;
    if x == 0 {
      InitOnce(p, {});
      InitAlone(p);
    } else {
      AtomicRunOnce(p, run, x - 1);
      NoneExempt(p);
      assert NextAtomic(p, run[x - 1], run[x]);
      var s := run[x - 1];
      var a :| Enabled(p, s, a) && (s.i < |p.listing| ==> a.Sweep? || a.CancelContext?) && run[x] == Apply(p, s, a);
      SweepAloneStep(p, s, a);
      if a.Sweep? {
        SweepEnabled(p, s);
        SweepAloneFresh(p, s);
      }
      OnceInvStep(p, s, a, {});
    }
  }

  lemma SweepEnabled(p: Plan, s: State)
    requires Enabled(p, s, Sweep)
    ensures s.i < |p.listing|
  {
  }

  lemma InitAlone(p: Plan)
    ensures SweepAlone(p, Init(p))
  {
  }

  ghost function Launches(s: State, n: string): set<nat> {
    set k: nat | k < |s.gos| && s.gos[k].step == n
  }

  /**
   With an atomic sweep, unique names, a closed carried set, and no repeated dependency that can be the
   last one, a complete run launches every step that is not carried exactly once, and no carried step.
   */
  lemma AtomicSweepLaunchesOnce(p: Plan, run: seq<State>, n: string)
    requires p.Valid() && p.Closed() && NoRepeats(p) && IsAtomicRun(p, run) && run[|run| - 1].Final(p) && n in p.pos
    ensures |Launches(run[|run| - 1], n)| == if n in p.carry then 0 else 1
  {
    hide Inv, PendingFresh, ResultsFresh, Plan.Keyed, Plan.Linked, Plan.Sorted;
    var s := run[|run| - 1];
    AtomicRunOnce(p, run, |run| - 1);
    if n in p.carry {
      assert Launches(s, n) == {};
    } else {
      FinalRecorded(p, s, n);
      var k: nat :| k < |s.gos| && s.gos[k].step == n;
      SingleLaunch(s, k, n);
    }
  }

  lemma SingleLaunch(s: State, k: nat, n: string)
    requires NoDoubleLaunch(s, {}) && k < |s.gos| && s.gos[k].step == n
    ensures Launches(s, n) == {k}
  {
  }

  lemma FinalRecorded(p: Plan, s: State, n: string)
    requires Inv(p, s) && s.Final(p) && n in p.pos && n !in p.carry
    ensures exists k: nat :: k < |s.gos| && s.gos[k].step == n
  {
    FinalHasAllResults(p, s);
    RecordedHasGoroutine(p, s, n);
  }

  lemma RecordedHasGoroutine(p: Plan, s: State, n: string)
    requires ResultsJustified(p, s) && n in s.results && n !in p.carry
    ensures exists k: nat :: k < |s.gos| && s.gos[k].step == n
  {
    assert RecordedBy(s, n);
    var k :| 0 <= k < |s.gos| && s.gos[k].step == n && s.gos[k].Recorded();
    var k': nat := k;
    assert k' < |s.gos| && s.gos[k'].step == n;
  }
}
