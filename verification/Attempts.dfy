/** What holds of the attempts in every state of every run, and what never changes back. */
module Attempts {
  import opened Steps
  import opened Outcome
  import opened Store
  import opened Lifecycle

  ghost predicate HasFailed(rows: map<Key, Row>, project: string, executionId: nat, attempt: nat) {
    exists k :: k in rows && k.project == project && IsFailedAttempt(rows[k], executionId, attempt)
  }

  predicate IsFailedAttempt(row: Row, executionId: nat, attempt: nat) {
    row.executionId == executionId && row.attempt == attempt && row.status == ExecFailed
  }

  /**
   In every reachable state, exactly the attempts after the first are queued as retries: of an execution from
   the repository, each naming the attempt before it, which has failed.
   */
  lemma RetryMeans(run: seq<State>, i: nat, k: Key)
    requires IsRun(run) && i < |run| && k in run[i].db.rows
    ensures var rows := run[i].db.rows; var row := rows[k];
            && (row.trigger == Retry <==> row.attempt > 1)
            && (row.attempt > 1 ==>
                  && row.source == Git && row.parentId.Some?
                  && var prev := Key(k.project, row.parentId.value);
                     prev in rows && IsFailedAttempt(rows[prev], row.executionId, row.attempt - 1) && rows[prev].source == Git)
  {
    hide IsRun, Chained, KeysOk, Unique, Owned, Exclusive, Attended, Gated, CallsOk, CallsFromGit;
    RunInv(run, i);
    var rows := run[i].db.rows;
    if rows[k].attempt > 1 {
      ChainedAt(rows, k);
    }
  }

  lemma ChainedAt(rows: map<Key, Row>, k: Key)
    requires Chained(rows) && k in rows && rows[k].attempt > 1
    ensures Follows(rows, k)
  {
  }

  lemma {:induction false} EarlierFailed(rows: map<Key, Row>, k: Key, attempt: nat)
    requires Chained(rows) && k in rows && attempt < rows[k].attempt
    requires Rooted(rows) && attempt >= 1
    ensures HasFailed(rows, k.project, rows[k].executionId, attempt)
    decreases rows[k].attempt
  {
    assert Follows(rows, k);
    var p := Key(k.project, rows[k].parentId.value);
    if attempt < rows[p].attempt {
      EarlierFailed(rows, p, attempt);
    } else {
      assert IsFailedAttempt(rows[p], rows[k].executionId, attempt);
    }
  }

  lemma {:induction false} RootThere(rows: map<Key, Row>, k: Key) returns (root: Key)
    requires Chained(rows) && Rooted(rows) && k in rows
    ensures root == Key(k.project, rows[k].executionId) && root in rows
    ensures rows[root].attempt == 1 && rows[root].executionId == root.id && rows[root].workspaceId == root.id
    decreases rows[k].attempt
  {
    if rows[k].attempt == 1 {
      root := k;
    } else {
      assert Follows(rows, k);
      root := RootThere(rows, Key(k.project, rows[k].parentId.value));
    }
  }

  /**
   In every reachable state, the attempts of an execution are numbered from one without gaps or
   repetitions, all but the last have failed, and all share the workspace of the root attempt.
   */
  lemma AttemptStructure(run: seq<State>, i: nat, k: Key)
    requires IsRun(run) && i < |run| && k in run[i].db.rows
    ensures var rows := run[i].db.rows;
            var row := rows[k];
            var root := Key(k.project, row.executionId);
            && root in rows && rows[root].attempt == 1 && row.workspaceId == root.id
            && row.attempt >= 1
            && (forall attempt :: 1 <= attempt < row.attempt ==> HasFailed(rows, k.project, row.executionId, attempt))
            && (forall l :: l in rows && l.project == k.project && SameAttempt(rows[l], row) ==> l == k)
  {
    hide IsRun, Chained, Follows, HasFailed, KeysOk, Owned, Exclusive, Gated, CallsOk;
    RunInv(run, i);
    var rows := run[i].db.rows;
    var root := RootThere(rows, k);
    forall attempt | 1 <= attempt < rows[k].attempt ensures HasFailed(rows, k.project, rows[k].executionId, attempt) {
      EarlierFailed(rows, k, attempt);
    }
  }

  lemma LowerIsFailed(rows: map<Key, Row>, k: Key, l: Key)
    requires Chained(rows) && Rooted(rows) && Unique(rows) && k in rows && l in rows
    requires k.project == l.project && rows[k].executionId == rows[l].executionId && rows[k].attempt < rows[l].attempt
    ensures rows[k].status == ExecFailed
  {
    hide Chained;
    EarlierFailed(rows, l, rows[k].attempt);
    var f :| f in rows && f.project == l.project && IsFailedAttempt(rows[f], rows[l].executionId, rows[k].attempt);
    assert SameAttempt(rows[f], rows[k]);
  }

  /** No two attempts that are pending or running ever share a workspace. */
  lemma WorkspaceExclusive(run: seq<State>, i: nat, k: Key, l: Key)
    requires IsRun(run) && i < |run| && k in run[i].db.rows && l in run[i].db.rows
    requires k.project == l.project && run[i].db.rows[k].workspaceId == run[i].db.rows[l].workspaceId
    requires run[i].db.rows[k].Active() && run[i].db.rows[l].Active()
    ensures k == l
  {
    hide IsRun, Chained, KeysOk, Owned, Exclusive, Gated, CallsOk;
    RunInv(run, i);
    var rows := run[i].db.rows;
    if rows[k].attempt < rows[l].attempt {
      LowerIsFailed(rows, k, l);
    } else if rows[l].attempt < rows[k].attempt {
      LowerIsFailed(rows, l, k);
    } else {
      assert SameAttempt(rows[k], rows[l]);
    }
  }

  // ---------------------------------------------------------------- retries that race

  /** The insertion of a retry goes through exactly when the attempt it retries is still the latest. */
  lemma InsertIff(s: State, c: nat)
    requires TableInv(s.db) && CallsOk(s.db.rows, s.calls) && c < |s.calls| && (s.calls[c].phase.Checked? || s.calls[c].phase.Clear?)
    ensures var p := s.calls[c].phase;
            CanCreate(s.db, p.prev.project, RetryDraft(p.prev, p.row)) <==> Latest(s.db.rows, p.prev.project, p.row.executionId, p.prev)
  {
    hide Taken, Chained, Unique;
    var p := s.calls[c].phase;
    var rows := s.db.rows;
    CallAt(rows, s.calls, c);
    RootPositive(s.db, p.prev);
    assert Key(p.prev.project, s.db.seqs[p.prev.project] + 1) !in rows;
    TakenIff(s.db, p.prev);
  }

  lemma TakenIff(db: Db, prev: Key)
    requires KeysOk(db) && Rooted(db.rows) && Chained(db.rows) && Unique(db.rows) && prev in db.rows
    ensures Taken(db.rows, prev.project, db.rows[prev].executionId, db.rows[prev].attempt + 1)
      <==> !Latest(db.rows, prev.project, db.rows[prev].executionId, prev)
  {
    hide Chained, Unique;
    var rows := db.rows;
    RootPositive(db, prev);
    if !Latest(rows, prev.project, rows[prev].executionId, prev) {
      var k :| k in rows && k.project == prev.project && rows[k].executionId == rows[prev].executionId && rows[k].attempt > rows[prev].attempt;
      if rows[k].attempt > rows[prev].attempt + 1 {
        EarlierFailed(rows, k, rows[prev].attempt + 1);
      }
    }
  }

  /** A workspace is found busy only when another retry has already overtaken this one. */
  lemma BusyMeansOvertaken(s: State, c: nat)
    requires TableInv(s.db) && CallsOk(s.db.rows, s.calls) && c < |s.calls| && s.calls[c].phase.Checked?
    requires Busy(s.db.rows, s.calls[c].phase.prev.project, s.calls[c].phase.row.workspaceId)
    ensures var p := s.calls[c].phase; !Latest(s.db.rows, p.prev.project, p.row.executionId, p.prev)
  {
    hide Chained, KeysOk;
    var p := s.calls[c].phase;
    var rows := s.db.rows;
    CallAt(rows, s.calls, c);
    var k :| k in rows && k.project == p.prev.project && rows[k].workspaceId == p.row.workspaceId && rows[k].Active();
    ActiveIsLater(rows, k, p.prev);
  }

  lemma ActiveIsLater(rows: map<Key, Row>, k: Key, prev: Key)
    requires Chained(rows) && Rooted(rows) && Unique(rows) && k in rows && prev in rows
    requires k.project == prev.project && rows[k].executionId == rows[prev].executionId
    requires rows[k].Active() && rows[prev].status == ExecFailed
    ensures rows[k].attempt > rows[prev].attempt
  {
    hide Chained;
    var same := SameAttempt(rows[k], rows[prev]);
    if rows[k].attempt < rows[prev].attempt {
      LowerIsFailed(rows, k, prev);
    }
  }

  // ---------------------------------------------------------------- what never changes back

  ghost predicate Grown(rows: map<Key, Row>, rows': map<Key, Row>) {
    forall k :: k in rows ==>
      && k in rows' && SameIdentity(rows[k], rows'[k])
      && (Terminal(rows[k].status) ==> rows'[k].status == rows[k].status)
      && (rows[k].cancelRequested ==> rows'[k].cancelRequested)
  }

  lemma EvolvesGrown(rows: map<Key, Row>, rows': map<Key, Row>)
    requires Evolves(rows, rows')
    ensures Grown(rows, rows')
  {
  }

  lemma GrownTransitive(a: map<Key, Row>, b: map<Key, Row>, c: map<Key, Row>)
    requires Grown(a, b) && Grown(b, c)
    ensures Grown(a, c)
  {
  }

  /**
   From any state of a run to any later one, no row is lost or renumbered, a terminal status stays as
   it is, and a request to stop stays, whatever restarts come in between.
   */
  lemma {:induction false} NothingUndone(run: seq<State>, i: nat, j: nat)
    requires IsRun(run) && i <= j < |run|
    ensures Grown(run[i].db.rows, run[j].db.rows)
    decreases j
  {
    hide Inv, Init, Grown, Owned;
    if i == j {
      StaysEvolves(run[i].db.rows);
      EvolvesGrown(run[i].db.rows, run[i].db.rows);
    } else {
      NothingUndone(run, i, j - 1);
      RunInv(run, j - 1);
      assert Owned(run[j - 1].db.rows, run[j - 1].workers) by {
        InvOwned(run[j - 1]);
      }
      assert Next(run[j - 1], run[j]);
      var a :| Enabled(run[j - 1], a) && run[j] == Apply(run[j - 1], a);
      StepEvolves(run[j - 1], a);
      EvolvesGrown(run[j - 1].db.rows, run[j].db.rows);
      GrownTransitive(run[i].db.rows, run[j - 1].db.rows, run[j].db.rows);
    }
  }

  lemma InvOwned(s: State)
    requires Inv(s)
    ensures Owned(s.db.rows, s.workers)
  {
  }

  /** An attempt becomes terminal at most once. */
  lemma TerminalOnce(run: seq<State>, i: nat, j: nat, k: Key)
    requires IsRun(run) && i < j && j + 1 < |run| && k in run[i].db.rows && k in run[i + 1].db.rows && k in run[j].db.rows
    requires !Terminal(run[i].db.rows[k].status) && Terminal(run[i + 1].db.rows[k].status)
    ensures Terminal(run[j].db.rows[k].status)
  {
    hide IsRun;
    NothingUndone(run, i + 1, j);
  }

  // ---------------------------------------------------------------- rows by status

  function WithStatus(rows: map<Key, Row>, status: ExecStatus): set<Key> {
    set k | k in rows && rows[k].status == status
  }

  /** The rows are exactly the pending, the running and the terminal ones, each counted once. */
  function Census(rows: map<Key, Row>): nat {
    |WithStatus(rows, ExecPending)| + |WithStatus(rows, ExecRunning)|
    + |WithStatus(rows, ExecSuccess)| + |WithStatus(rows, ExecFailed)| + |WithStatus(rows, ExecCanceled)|
  }

  lemma Disjoint(a: set<Key>, b: set<Key>)
    requires a !! b
    ensures |a + b| == |a| + |b|
  {
  }

  lemma Parts(all: set<Key>, p: set<Key>, r: set<Key>, s: set<Key>, f: set<Key>, c: set<Key>)
    requires all == p + r + s + f + c && p !! r !! s !! f !! c
    ensures |all| == |p| + |r| + |s| + |f| + |c|
  {
    Disjoint(p, r);
    Disjoint(p + r, s);
    Disjoint(p + r + s, f);
    Disjoint(p + r + s + f, c);
  }

  lemma CensusIsAll(rows: map<Key, Row>)
    ensures Census(rows) == |rows|
  {
    var p, r, s, f, c := WithStatus(rows, ExecPending), WithStatus(rows, ExecRunning),
      WithStatus(rows, ExecSuccess), WithStatus(rows, ExecFailed), WithStatus(rows, ExecCanceled);
    StatusesCover(rows);
    StatusesApart(rows);
    Parts(rows.Keys, p, r, s, f, c);
    assert |rows| == |rows.Keys|;
  }

  lemma StatusesCover(rows: map<Key, Row>)
    ensures rows.Keys == WithStatus(rows, ExecPending) + WithStatus(rows, ExecRunning)
      + WithStatus(rows, ExecSuccess) + WithStatus(rows, ExecFailed) + WithStatus(rows, ExecCanceled)
  {
  }

  lemma StatusesApart(rows: map<Key, Row>)
    ensures WithStatus(rows, ExecPending) !! WithStatus(rows, ExecRunning)
      !! WithStatus(rows, ExecSuccess) !! WithStatus(rows, ExecFailed) !! WithStatus(rows, ExecCanceled)
  {
  }

  /**
   Rows are conserved across the statuses: a transition keeps them all, and only the queuing of an
   attempt may add one, which is pending.
   */
  lemma RowsConserved(s: State, a: Action)
    requires Inv(s) && Enabled(s, a)
    ensures var rows, rows' := s.db.rows, Apply(s, a).db.rows;
            && rows.Keys <= rows'.Keys
            && Census(rows') == Census(rows) + (if rows'.Keys == rows.Keys then 0 else 1)
            && (rows'.Keys != rows.Keys ==> Queues(a) && exists k :: k in rows' && k !in rows && rows'[k].status == ExecPending)
  {
    hide Enabled, Apply, Inv, Census, Evolves;
    var rows, rows' := s.db.rows, Apply(s, a).db.rows;
    CensusIsAll(rows);
    CensusIsAll(rows');
    assert |rows'| == |rows'.Keys| && |rows| == |rows.Keys|;
    if Queues(a) {
      QueuedOne(s, a);
    } else {
      InvOwned(s);
      StepQuiet(s, a);
    }
  }

  lemma QueuedOne(s: State, a: Action)
    requires Enabled(s, a) && Queues(a)
    ensures var rows, rows' := s.db.rows, Apply(s, a).db.rows;
            rows' == rows ||
              (|rows'| == |rows| + 1 && rows.Keys < rows'.Keys && exists k :: k in rows' && k !in rows && rows'[k].status == ExecPending)
  {
    hide Taken;
    var (project, d) := if a.Enqueue? then (a.project, a.draft)
      else (s.calls[a.c].phase.prev.project, RetryDraft(s.calls[a.c].phase.prev, s.calls[a.c].phase.row));
    if CanCreate(s.db, project, d) {
      var k := Key(project, s.db.seqs[project] + 1);
      var rows' := s.db.rows[k := RowOf(d, k.id)];
      assert rows'.Keys == s.db.rows.Keys + {k};
      Disjoint(s.db.rows.Keys, {k});
      assert |rows'| == |rows'.Keys| && |s.db.rows| == |s.db.rows.Keys|;
      assert k in rows' && k !in s.db.rows && rows'[k].status == ExecPending;
    }
  }

  // ---------------------------------------------------------------- claims and the gate

  /** No attempt is ever run by two workers at once, and what a worker runs is running. */
  lemma ClaimExclusive(run: seq<State>, i: nat, v: nat, w: nat)
    requires IsRun(run) && i < |run| && v < |run[i].workers| && w < |run[i].workers|
    requires run[i].workers[v].Working? && run[i].workers[w].Working? && run[i].workers[v].key == run[i].workers[w].key
    ensures v == w
    ensures run[i].workers[v].key in run[i].db.rows && run[i].db.rows[run[i].workers[v].key].status == ExecRunning
  {
    hide IsRun, TableInv, Gated, CallsOk;
    RunInv(run, i);
    OwnedAt(run[i].db.rows, run[i].workers, v);
  }

  /** An attempt is running exactly when some worker runs it: none is forgotten, whatever restarts come in between. */
  lemma RunningIffHeld(run: seq<State>, i: nat, k: Key)
    requires IsRun(run) && i < |run| && k in run[i].db.rows
    ensures run[i].db.rows[k].status == ExecRunning <==> Held(run[i].workers, k)
  {
    hide IsRun, TableInv, Exclusive, Gated, CallsOk;
    RunInv(run, i);
    if w :| 0 <= w < |run[i].workers| && run[i].workers[w].Working? && run[i].workers[w].key == k {
      OwnedAt(run[i].db.rows, run[i].workers, w);
    }
  }

  /** At most one running attempt of a project and group is past the gate without having been asked to stop. */
  lemma OnePastGate(run: seq<State>, i: nat, v: nat, w: nat)
    requires IsRun(run) && i < |run| && v < |run[i].workers| && w < |run[i].workers|
    requires Rivals(run[i].workers[v], run[i].workers[w])
    requires !Stopped(run[i].db.rows, run[i].workers[v].key) && !Stopped(run[i].db.rows, run[i].workers[w].key)
    ensures v == w
  {
    hide IsRun, TableInv, Owned, Exclusive, CallsOk;
    RunInv(run, i);
    assert Rivals(run[i].workers[w], run[i].workers[v]);
  }
}
