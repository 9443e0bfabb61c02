/**
 What becomes of a carried set that is not closed under dependencies: a carried step waits for one that is
 run again, is launched when that one completes, and its carried result is replaced by the new one.
 */
module SeedLoss {
  import opened Steps
  import opened Scheduler
  import opened SchedulerInvariant
  import opened SchedulerConfluence
  import opened SchedulerTermination
  import opened SchedulerOnce
  import opened SchedulerExplained
  import opened SweepRace
  import opened Schedules
  import opened RaceStage
  import opened RaceVerdict

  /** Nothing that has been run is a success. */
  ghost predicate Sunk(s: State) {
    forall k: nat :: k < |s.gos| && s.gos[k].Recorded() ==>
      s.gos[k].step in s.results && s.results[s.gos[k].step].status != Success
  }

  lemma SunkStep(p: Plan, h: Hold, s: State, a: Action)
    requires NamesKnown(p, s) && Sunk(s) && Guided(p, h, p.pos.Keys, s, a) && Enabled(p, s, a)
    ensures Sunk(Apply(p, s, a))
  {
    match a
    case Finish(k, res) => SunkFinish(p, h, s, k, res);
    case _ => SunkOther(p, s, a);
  }

  lemma SunkFinish(p: Plan, h: Hold, s: State, k: nat, res: StepResult)
    requires NamesKnown(p, s) && Sunk(s) && Guided(p, h, p.pos.Keys, s, Finish(k, res)) && Enabled(p, s, Finish(k, res))
    ensures Sunk(Apply(p, s, Finish(k, res)))
  {
    hide Ready, ProgressKnown;
    assert s.gos[k].step in p.pos;
    assert res.status != Success;
  }

  lemma SunkOther(p: Plan, s: State, a: Action)
    requires Sunk(s) && Enabled(p, s, a) && !a.Finish?
    ensures Sunk(Apply(p, s, a))
  {
    hide Ready, DepsSucceeded;
  }

  lemma {:induction false} SunkAlong(p: Plan, h: Hold, run: seq<State>, x: nat)
    requires IsGuidedRun(p, h, p.pos.Keys, run) && Inv(p, run[0]) && Sunk(run[0]) && x < |run|
    ensures Sunk(run[x])
  {
    hide Sunk, Guided, Apply, Inv;
    if x > 0 {
      SunkAlong(p, h, run, x - 1);
      SweptAt(p, h, p.pos.Keys, run, x - 1);
      assert NextGuided(p, h, p.pos.Keys, run[x - 1], run[x]);
      var a :| Enabled(p, run[x - 1], a) && Guided(p, h, p.pos.Keys, run[x - 1], a) && run[x] == Apply(p, run[x - 1], a);
      InvParts(p, run[x - 1]);
      SunkStep(p, h, run[x - 1], a);
    }
  }

  /** A complete run in which no step that is run succeeds. */
  lemma SinkingRun(p: Plan) returns (run: seq<State>)
    requires p.Valid()
    ensures IsCompleteRun(p, run) && Sunk(run[|run| - 1]) && NamesKnown(p, run[|run| - 1])
  {
    hide Inv, Settled, Sunk, IsRun, IsGuidedRun, State.Final, NamesKnown;
    var bad := p.pos.Keys;
    InitInv(p);
    InitSunk(p);
    var sweep := SweepTo(p, Init(p), |p.listing|);
    SweepIsGuided(p, HoldNone, bad, sweep);
    var rest := Settle(p, HoldNone, bad, sweep[|sweep| - 1]);
    JoinGuided(p, HoldNone, bad, sweep, rest);
    run := sweep + rest[1..];
    SunkAlong(p, HoldNone, run, |run| - 1);
    GuidedIsRun(p, HoldNone, bad, run);
    FreeIsFinal(p, run[|run| - 1]);
    InvParts(p, run[|run| - 1]);
  }

  lemma InitSunk(p: Plan)
    ensures Sunk(Init(p))
  {
  }

  /** From a carried set that is not closed, some complete run loses a carried success. */
  lemma OpenSeedLoses(p: Plan) returns (run: seq<State>, n: string)
    requires p.Valid() && !p.Closed()
    ensures IsCompleteRun(p, run)
    ensures var s := run[|run| - 1]; n in p.pos && n in p.carry && n in s.results && s.results[n].status != Success
  {
    hide IsRun, Plan.Closed, Plan.Valid;
    run := SinkingRun(p);
    var s := run[|run| - 1];
    CarriedRelaunchedIff(p, run);
    var k :| 0 <= k < |s.gos| && s.gos[k].step in p.carry;
    n := s.gos[k].step;
  }

  /** Carried results stay as they were seeded. */
  lemma {:induction false} KeptRun(p: Plan, run: seq<State>, x: nat)
    requires p.Valid() && p.Closed() && IsRun(p, run) && run[0] == Init(p) && x < |run|
    ensures CarriedKept(p, run[x])
  {
    hide CarriedKept, Plan.Closed, Apply, Enabled, NoCarriedLaunch;
    if x == 0 {
      InitKept(p);
    } else {
      KeptRun(p, run, x - 1);
      ClosedMeansNoCarriedLaunch(p, run, x - 1);
      assert Next(p, run[x - 1], run[x]);
      var a :| Enabled(p, run[x - 1], a) && run[x] == Apply(p, run[x - 1], a);
      CarriedKeptStep(p, run[x - 1], a);
    }
  }

  lemma InitKept(p: Plan)
    ensures CarriedKept(p, Init(p))
  {
  }

  ghost predicate AlwaysKept(p: Plan) {
    forall run: seq<State> :: IsCompleteRun(p, run) ==> CarriedKept(p, run[|run| - 1])
  }

  /** Every complete run keeps every carried success, unchanged, exactly when the carried set is closed. */
  lemma SeedKeptIff(p: Plan)
    requires p.Valid() && CarriedSucceeded(p)
    ensures AlwaysKept(p) <==> p.Closed()
  {
    hide IsRun, State.Final, Plan.Closed, Plan.Linked, Plan.Sorted;
    if p.Closed() {
      forall run: seq<State> | IsCompleteRun(p, run) ensures CarriedKept(p, run[|run| - 1]) {
        KeptRun(p, run, |run| - 1);
      }
    } else {
      var run, n := OpenSeedLoses(p);
      assert !CarriedKept(p, run[|run| - 1]);
    }
  }
}
