/**
 The table of attempts. Both databases keep the same columns and their statements have the same
 effects, so there is one table here: rows keyed by project and id, and a sequence of ids for each
 project. Each function is the effect of one statement, or of one transaction.
 */
module Store {
  import opened Steps
  import opened Outcome

  datatype Option<T> = None | Some(value: T)

  datatype Trigger = Manual | Webhook | Cron | Rebuild | Retry

  datatype Source = Git | Snapshot

  datatype Key = Key(project: string, id: nat)

  datatype Row = Row(
    executionId: nat,
    attempt: nat,
    workspaceId: nat,
    parentId: Option<nat>,
    trigger: Trigger,
    source: Source,
    status: ExecStatus,
    steps: seq<StepResult>,
    error: string,
    commitSha: string,
    group: string,
    cancelRequested: bool,
    claimedBy: string)
  {
    predicate Active() {
      status == ExecPending || status == ExecRunning
    }

    /** The columns an update writes. */
    function Written(): Image {
      Image(status, steps, error, commitSha, group)
    }
  }

  /** The columns that never change once a row is inserted. */
  predicate SameIdentity(a: Row, b: Row) {
    && a.executionId == b.executionId && a.attempt == b.attempt && a.workspaceId == b.workspaceId
    && a.parentId == b.parentId && a.trigger == b.trigger && a.source == b.source
  }

  datatype Db = Db(rows: map<Key, Row>, seqs: map<string, nat>)

  /** The columns an update of an execution writes. */
  datatype Image = Image(status: ExecStatus, steps: seq<StepResult>, error: string, commitSha: string, group: string)

  /** An attempt to be inserted: an execution id of zero asks for a new execution. */
  datatype Draft = Draft(
    executionId: nat,
    attempt: nat,
    workspaceId: Option<nat>,
    parentId: Option<nat>,
    trigger: Trigger,
    source: Source,
    commitSha: string)

  /** The row a draft becomes under the next id of its project. */
  function RowOf(d: Draft, id: nat): Row {
    Row(if d.executionId == 0 then id else d.executionId,
        if d.executionId == 0 || d.attempt == 0 then 1 else d.attempt,
        if d.workspaceId.Some? then d.workspaceId.value else id,
        d.parentId, d.trigger, d.source, ExecPending, [], "", d.commitSha, "", false, "")
  }

  /** Some row of the project has that number in that execution. */
  predicate Taken(rows: map<Key, Row>, project: string, executionId: nat, attempt: nat) {
    exists k :: k in rows && k.project == project && rows[k].executionId == executionId && rows[k].attempt == attempt
  }

  /** The insertion goes through: the project exists, and the unique constraint holds. */
  predicate CanCreate(db: Db, project: string, d: Draft) {
    && project in db.seqs
    && Key(project, db.seqs[project] + 1) !in db.rows
    && var row := RowOf(d, db.seqs[project] + 1);
       !Taken(db.rows, project, row.executionId, row.attempt)
  }

  /** The sequence moves on and the row is inserted, or, when the insertion fails, neither happens. */
  function Create(db: Db, project: string, d: Draft): Db {
    if CanCreate(db, project, d) then
      var id := db.seqs[project] + 1;
      Db(db.rows[Key(project, id) := RowOf(d, id)], db.seqs[project := id])
    else db
  }

  function Updated(row: Row, image: Image): Row {
    row.(status := image.status, steps := image.steps, error := image.error, commitSha := image.commitSha, group := image.group)
  }

  function Update(rows: map<Key, Row>, key: Key, image: Image): map<Key, Row> {
    if key in rows then rows[key := Updated(rows[key], image)] else rows
  }

  /** The guarded half of a claim: nothing happens unless the row is still pending. */
  function Claim(rows: map<Key, Row>, key: Key, worker: string): map<Key, Row> {
    if key in rows && rows[key].status == ExecPending
    then rows[key := rows[key].(status := ExecRunning, claimedBy := worker)]
    else rows
  }

  function Requeue(rows: map<Key, Row>): map<Key, Row> {
    map k | k in rows :: if rows[k].status == ExecRunning then rows[k].(status := ExecPending, claimedBy := "") else rows[k]
  }

  function RequestCancel(rows: map<Key, Row>, key: Key): map<Key, Row> {
    if key in rows then rows[key := rows[key].(cancelRequested := true)] else rows
  }

  predicate InGroup(k: Key, row: Row, project: string, group: string, except: nat) {
    k.project == project && row.group == group && row.status == ExecRunning && k.id != except
  }

  function CancelGroup(rows: map<Key, Row>, project: string, group: string, except: nat): map<Key, Row> {
    map k | k in rows :: if InGroup(k, rows[k], project, group, except) then rows[k].(cancelRequested := true) else rows[k]
  }

  predicate Busy(rows: map<Key, Row>, project: string, workspaceId: nat) {
    exists k :: k in rows && k.project == project && rows[k].workspaceId == workspaceId && rows[k].Active()
  }

  /** The pending row a claim selects when it runs alone: one with the smallest id. */
  ghost predicate NextPending(rows: map<Key, Row>, key: Key) {
    && key in rows && rows[key].status == ExecPending
    && forall k :: k in rows && rows[k].status == ExecPending ==> key.id <= k.id
  }

  /** The latest attempt of an execution; its root attempt must be there to join with. */
  ghost predicate Latest(rows: map<Key, Row>, project: string, executionId: nat, key: Key) {
    && Key(project, executionId) in rows
    && key in rows && key.project == project && rows[key].executionId == executionId
    && forall k :: k in rows && k.project == project && rows[k].executionId == executionId ==> rows[k].attempt <= rows[key].attempt
  }

  // ---------------------------------------------------------------- the store, in place

  /** An execution as the callers of the store hold it. */
  class Execution {
    var project: string
    var id: nat
    var executionId: nat
    var attempt: nat
    var attemptsCount: nat
    var workspaceId: Option<nat>
    var parentId: Option<nat>
    var previousAttemptId: Option<nat>
    var trigger: Trigger
    var source: Source
    var commitSha: string

    constructor (project: string, trigger: Trigger, source: Source, commitSha: string)
      ensures this.project == project && this.trigger == trigger && this.source == source && this.commitSha == commitSha
      ensures id == executionId == attempt == attemptsCount == 0
      ensures workspaceId == None && parentId == None && previousAttemptId == None
    {
      this.project, this.trigger, this.source, this.commitSha := project, trigger, source, commitSha;
      id, executionId, attempt, attemptsCount := 0, 0, 0, 0;
      workspaceId, parentId, previousAttemptId := None, None, None;
    }

    /** What inserting it asks for: a previous attempt takes the place of the parent. */
    function AsDraft(): Draft
      reads this
    {
      Draft(executionId, attempt, workspaceId, if previousAttemptId.Some? then previousAttemptId else parentId,
            trigger, source, commitSha)
    }
  }

  class ExecutionStore {
    var rows: map<Key, Row>
    var seqs: map<string, nat>

    constructor (projects: set<string>)
      ensures rows == map[] && seqs.Keys == projects && forall p :: p in projects ==> seqs[p] == 0
    {
      rows := map[];
      seqs := map p | p in projects :: 0;
    }

    function Contents(): Db
      reads this
    {
      Db(rows, seqs)
    }

    /** Inserts an attempt in one transaction, writing what it was numbered back into it. */
    method CreateExecution(e: Execution) returns (ok: bool)
      modifies this, e
      ensures ok == old(CanCreate(Contents(), e.project, e.AsDraft()))
      ensures Contents() == old(Create(Contents(), e.project, e.AsDraft()))
      ensures ok ==> Key(e.project, e.id) in rows && e.project in old(seqs) && e.id == old(seqs)[e.project] + 1
      ensures ok ==> rows[Key(e.project, e.id)].executionId == e.executionId && rows[Key(e.project, e.id)].attempt == e.attempt
      ensures e.project == old(e.project)
      ensures ok ==> rows == old(rows)[Key(e.project, e.id) := rows[Key(e.project, e.id)]] && seqs == old(seqs)[e.project := e.id]
      ensures ok ==> var row := rows[Key(e.project, e.id)];
        && row.executionId == (if old(e.executionId) == 0 then e.id else old(e.executionId))
        && row.attempt == (if old(e.executionId) == 0 || old(e.attempt) == 0 then 1 else old(e.attempt))
        && row.workspaceId == (if old(e.workspaceId).Some? then old(e.workspaceId).value else e.id)
        && row.parentId == (if old(e.previousAttemptId).Some? then old(e.previousAttemptId) else old(e.parentId))
        && row.trigger == old(e.trigger) && row.source == old(e.source) && row.commitSha == old(e.commitSha)
        && row.Written() == Image(ExecPending, [], "", old(e.commitSha), "") && !row.cancelRequested && row.claimedBy == ""
      ensures ok ==> forall k :: k in old(rows) && k.project == e.project ==>
        old(rows)[k].executionId != e.executionId || old(rows)[k].attempt != e.attempt
      ensures !ok ==> rows == old(rows) && seqs == old(seqs)
      ensures !ok && e.project in seqs && Key(e.project, seqs[e.project] + 1) !in rows ==>
        exists k :: k in rows && k.project == e.project && rows[k].executionId == e.executionId && rows[k].attempt == e.attempt
    {
      hide Taken;
      ghost var d := e.AsDraft();
      if e.attempt == 0 {
        e.attempt := 1;
      }
      if e.project !in seqs {
        return false;
      }
      var id := seqs[e.project] + 1;
      var row := Number(e, id);
      assert row == RowOf(d, id);
      var key := Key(e.project, id);
      if key in rows || Taken(rows, e.project, row.executionId, row.attempt) {
        TakenMeans(rows, e.project, row.executionId, row.attempt);
        return false;
      }
      TakenMeans(rows, e.project, row.executionId, row.attempt);
      rows := rows[key := row];
      seqs := seqs[e.project := id];
      ok := true;
    }

    static lemma TakenMeans(rows: map<Key, Row>, project: string, executionId: nat, attempt: nat)
      ensures Taken(rows, project, executionId, attempt) <==>
        exists k :: k in rows && k.project == project && rows[k].executionId == executionId && rows[k].attempt == attempt
    {
    }

    /** Writes its numbers into an execution, and makes its row. */
    static method Number(e: Execution, id: nat) returns (row: Row)
      requires e.attempt > 0
      modifies e
      ensures row == RowOf(old(e.AsDraft()), id)
      ensures e.id == id && e.executionId == row.executionId && e.attempt == row.attempt
      ensures e.workspaceId == Some(row.workspaceId) && e.project == old(e.project)
    {
      e.id := id;
      if e.workspaceId == None {
        e.workspaceId := Some(id);
      }
      if e.executionId == 0 {
        e.executionId := id;
        e.attempt := 1;
      }
      if e.attemptsCount == 0 {
        e.attemptsCount := e.attempt;
      }
      var parentId := e.parentId;
      if e.previousAttemptId.Some? {
        parentId := e.previousAttemptId;
      }
      row := Row(e.executionId, e.attempt, e.workspaceId.value, parentId, e.trigger, e.source, ExecPending, [], "", e.commitSha, "", false, "");
    }

    /** The columns in the image are written; identity, claim and cancel request stay. */
    method UpdateExecution(key: Key, image: Image)
      modifies this`rows
      ensures rows == Update(old(rows), key, image)
      ensures rows.Keys == old(rows).Keys && forall k :: k in rows && k != key ==> rows[k] == old(rows)[k]
      ensures key in rows ==> rows[key].Written() == image && SameIdentity(old(rows)[key], rows[key])
      ensures key in rows ==> rows[key].claimedBy == old(rows)[key].claimedBy
      ensures key in rows ==> rows[key].cancelRequested == old(rows)[key].cancelRequested
    {
      if key in rows {
        rows := rows[key := Updated(rows[key], image)];
      }
    }

    /** Selects the pending attempt with the smallest id, and claims it. */
    method ClaimPendingExecution(worker: string) returns (claimed: Option<Key>)
      modifies this`rows
      ensures claimed == None <==> forall k :: k in old(rows) ==> old(rows)[k].status != ExecPending
      ensures claimed == None ==> rows == old(rows)
      ensures claimed.Some? ==> NextPending(old(rows), claimed.value) && rows == Claim(old(rows), claimed.value, worker)
      ensures claimed.Some? ==> var key := claimed.value;
        && key in old(rows) && old(rows)[key].status == ExecPending
        && (forall k :: k in old(rows) && old(rows)[k].status == ExecPending ==> key.id <= k.id)
        && rows == old(rows)[key := old(rows)[key].(status := ExecRunning, claimedBy := worker)]
    {
      claimed := SelectPending();
      if claimed.Some? {
        rows := rows[claimed.value := rows[claimed.value].(status := ExecRunning, claimedBy := worker)];
      }
    }

    method SelectPending() returns (best: Option<Key>)
      ensures best == None <==> forall k :: k in rows ==> rows[k].status != ExecPending
      ensures best.Some? ==> NextPending(rows, best.value)
    {
      best := None;
      var rest := rows.Keys;
      while rest != {}
        invariant rest <= rows.Keys
        invariant best == None ==> forall k :: k in rows && k !in rest ==> rows[k].status != ExecPending
        invariant best.Some? ==> best.value in rows && rows[best.value].status == ExecPending
        invariant best.Some? ==> forall k :: k in rows && k !in rest && rows[k].status == ExecPending ==> best.value.id <= k.id
        decreases |rest|
      {
        var k :| k in rest;
        if rows[k].status == ExecPending && (best == None || k.id < best.value.id) {
          best := Some(k);
        }
        rest := rest - {k};
      }
    }

    /** Nothing is running afterwards: what was is pending and unclaimed, with all it had recorded. */
    method RequeueOrphanedExecutions()
      modifies this`rows
      ensures rows == Requeue(old(rows))
      ensures rows.Keys == old(rows).Keys && forall k :: k in rows ==> rows[k].status != ExecRunning
      ensures forall k :: k in rows && old(rows)[k].status != ExecRunning ==> rows[k] == old(rows)[k]
      ensures forall k :: k in rows && old(rows)[k].status == ExecRunning ==>
        && rows[k].status == ExecPending && rows[k].claimedBy == "" && SameIdentity(old(rows)[k], rows[k])
        && rows[k].cancelRequested == old(rows)[k].cancelRequested && rows[k].steps == old(rows)[k].steps
    {
      rows := map k | k in rows :: if rows[k].status == ExecRunning then rows[k].(status := ExecPending, claimedBy := "") else rows[k];
    }

    method SetCancelRequested(key: Key)
      modifies this`rows
      ensures rows == RequestCancel(old(rows), key)
      ensures rows.Keys == old(rows).Keys && forall k :: k in rows && k != key ==> rows[k] == old(rows)[k]
      ensures key in rows ==> rows[key].cancelRequested && SameIdentity(old(rows)[key], rows[key])
      ensures key in rows ==> rows[key].Written() == old(rows)[key].Written() && rows[key].claimedBy == old(rows)[key].claimedBy
    {
      if key in rows {
        rows := rows[key := rows[key].(cancelRequested := true)];
      }
    }

    /** No other running attempt of the group is left without a request to stop, and nobody else gets one. */
    method CancelRunningInGroup(project: string, group: string, except: nat)
      modifies this`rows
      ensures rows == CancelGroup(old(rows), project, group, except)
      ensures rows.Keys == old(rows).Keys
      ensures forall k :: k in rows && k.project == project && k.id != except && rows[k].group == group && rows[k].status == ExecRunning ==>
        rows[k].cancelRequested
      ensures forall k :: k in rows && rows[k] != old(rows)[k] ==>
        && k.project == project && k.id != except && rows[k].group == group && rows[k].status == ExecRunning
        && rows[k].cancelRequested && !old(rows)[k].cancelRequested
      ensures forall k :: k in rows ==>
        && SameIdentity(old(rows)[k], rows[k]) && rows[k].Written() == old(rows)[k].Written()
        && rows[k].claimedBy == old(rows)[k].claimedBy
    {
      rows := map k | k in rows ::
        if k.project == project && rows[k].group == group && rows[k].status == ExecRunning && k.id != except
        then rows[k].(cancelRequested := true) else rows[k];
    }

    /** The latest attempt of an execution. */
    method GetLatestAttempt(project: string, executionId: nat) returns (latest: Option<Key>)
      ensures latest.Some? ==> Latest(rows, project, executionId, latest.value)
      ensures latest == None <==>
        (Key(project, executionId) !in rows || forall k :: k in rows && k.project == project ==> rows[k].executionId != executionId)
    {
      latest := None;
      if Key(project, executionId) !in rows {
        return;
      }
      var rest := rows.Keys;
      while rest != {}
        invariant rest <= rows.Keys
        invariant latest == None ==> forall k :: k in rows && k !in rest && k.project == project ==> rows[k].executionId != executionId
        invariant latest.Some? ==> latest.value in rows && latest.value.project == project && rows[latest.value].executionId == executionId
        invariant latest.Some? ==> forall k :: k in rows && k !in rest && k.project == project && rows[k].executionId == executionId ==>
          rows[k].attempt <= rows[latest.value].attempt
        decreases |rest|
      {
        var k :| k in rest;
        if k.project == project && rows[k].executionId == executionId && (latest == None || rows[latest.value].attempt < rows[k].attempt) {
          latest := Some(k);
        }
        rest := rest - {k};
      }
    }

    /** Counts the attempts that hold the workspace; it is free iff all that ever used it have come to an end. */
    method WorkspaceBusy(project: string, workspaceId: nat) returns (busy: bool)
      ensures busy <==> Busy(rows, project, workspaceId)
      ensures !busy <==>
        forall k :: k in rows && k.project == project && rows[k].workspaceId == workspaceId ==> Terminal(rows[k].status)
    {
      var active := set k | k in rows && k.project == project && rows[k].workspaceId == workspaceId && rows[k].Active();
      busy := |active| > 0;
      assert Busy(rows, project, workspaceId) ==> busy by {
        if Busy(rows, project, workspaceId) {
          var k :| k in rows && k.project == project && rows[k].workspaceId == workspaceId && rows[k].Active();
          assert k in active;
        }
      }
    }
  }
}
