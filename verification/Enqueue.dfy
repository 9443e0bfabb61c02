/** Queuing attempts through the store: retries, rebuilds, and requests to cancel. */
module Enqueue {
  import opened Steps
  import opened Outcome
  import opened Store
  import opened Lifecycle
  import opened Attempts

  datatype Reason = NotLatest | SnapshotSource | NotFailed | NothingToRetry | WorkspaceGone | WorkspaceInUse

  datatype RetryResult = Queued(key: Key) | NotFound | Rejected(reason: Reason)

  /** The first check a retry fails on its row, in the order they are made. */
  function FirstRefusal(row: Row, latestId: nat, previousId: nat, workspaceThere: bool): (r: Option<Reason>)
    ensures r == None <==> MayRetry(row, latestId, previousId, workspaceThere)
    ensures r == Some(NotLatest) <==> latestId != previousId
    ensures r == Some(SnapshotSource) <==> latestId == previousId && row.source == Snapshot
    ensures r == Some(NotFailed) <==> latestId == previousId && row.source == Git && row.status != ExecFailed
    ensures r == Some(NothingToRetry) <==>
      && latestId == previousId && row.source == Git && row.status == ExecFailed
      && forall i :: 0 <= i < |row.steps| ==> row.steps[i].status != Failed && row.steps[i].status != Skipped
    ensures r == Some(WorkspaceGone) <==> MayRetry(row, latestId, previousId, true) && !workspaceThere
    ensures r.Some? ==> r.value != WorkspaceInUse
  {
    if latestId != previousId then Some(NotLatest)
    else if row.source != Git then Some(SnapshotSource)
    else if row.status != ExecFailed then Some(NotFailed)
    else if !Retryable(row.steps) then Some(NothingToRetry)
    else if !workspaceThere then Some(WorkspaceGone)
    else None
  }

  /** In a sound table, a latest attempt that has failed has a free workspace and a free next number. */
  lemma LatestFailedIsFree(db: Db, prev: Key)
    requires TableInv(db) && prev in db.rows && db.rows[prev].status == ExecFailed
    requires Latest(db.rows, prev.project, db.rows[prev].executionId, prev)
    ensures !Busy(db.rows, prev.project, db.rows[prev].workspaceId)
    ensures CanCreate(db, prev.project, RetryDraft(prev, db.rows[prev]))
  {
    hide Chained, Unique, Taken;
    var s := State(db, [], [Call(prev.project, db.rows[prev].executionId, prev.id, Checked(prev, db.rows[prev]))]);
    SingleCall(db.rows, s.calls, prev);
    InsertIff(s, 0);
    if Busy(db.rows, prev.project, db.rows[prev].workspaceId) {
      BusyMeansOvertaken(s, 0);
    }
  }

  lemma SingleCall(rows: map<Key, Row>, calls: seq<Call>, prev: Key)
    requires prev in rows && rows[prev].status == ExecFailed
    requires |calls| == 1 && calls[0].phase == Checked(prev, rows[prev])
    ensures CallsOk(rows, calls)
  {
  }

  /** The latest attempt is one row only. */
  lemma LatestUnique(db: Db, project: string, executionId: nat, k: Key, l: Key)
    requires TableInv(db) && Latest(db.rows, project, executionId, k) && Latest(db.rows, project, executionId, l)
    ensures k == l
  {
    hide Chained, KeysOk, Rooted;
    var same := SameAttempt(db.rows[k], db.rows[l]);
  }

  /** `next` is `row`, the attempt under `id`, tried again: of the same commit, in the same workspace, with nothing done yet. */
  ghost predicate NextAttempt(row: Row, id: nat, next: Row) {
    && next.trigger == Retry && next.source == Git && next.commitSha == row.commitSha
    && next.executionId == row.executionId && next.attempt == row.attempt + 1
    && next.workspaceId == row.workspaceId && next.parentId == Some(id)
    && next.status == ExecPending && next.steps == [] && next.error == "" && next.group == ""
    && !next.cancelRequested && next.claimedBy == ""
  }

  lemma RetryRow(k: Key, row: Row, id: nat)
    requires row.executionId > 0
    ensures NextAttempt(row, k.id, RowOf(RetryDraft(k, row), id))
  {
  }

  /** In a sound table, executions are numbered from one. */
  lemma ExecutionPositive(db: Db, k: Key)
    requires TableInv(db) && k in db.rows
    ensures db.rows[k].executionId > 0
  {
    hide Unique;
    RootPositive(db, k);
  }

  /** An attempt to retry: the latest one, of a commit, failed with a step to run again, its workspace still there. */
  ghost predicate Retriable(row: Row, latest: bool, workspaceThere: bool) {
    && latest && workspaceThere && row.source == Git && row.status == ExecFailed
    && exists i :: 0 <= i < |row.steps| && row.steps[i].status in {Failed, Skipped}
  }

  lemma RefusalMeans(row: Row, latestId: nat, previousId: nat, workspaceThere: bool)
    ensures FirstRefusal(row, latestId, previousId, workspaceThere) == None <==> Retriable(row, latestId == previousId, workspaceThere)
  {
  }

  /**
   A retry that nothing interleaves with is queued exactly when the attempt named is the latest and may
   be retried; it then becomes the next attempt of its execution, pending, in the same workspace.
   */
  method EnqueueRetry(store: ExecutionStore, project: string, executionId: nat, previousId: nat, workspaceThere: bool)
    returns (r: RetryResult)
    requires TableInv(store.Contents())
    modifies store
    ensures TableInv(store.Contents())
    ensures r == NotFound <==> !exists k :: Latest(old(store.rows), project, executionId, k)
    ensures forall k :: Latest(old(store.rows), project, executionId, k) ==>
      match FirstRefusal(old(store.rows)[k], k.id, previousId, workspaceThere)
      case Some(reason) => r == Rejected(reason)
      case None => r.Queued? && store.Contents() == Create(old(store.Contents()), project, RetryDraft(k, old(store.rows)[k]))
    ensures r.Queued? ==> r.key !in old(store.rows) && r.key in store.rows && store.rows[r.key].status == ExecPending
    ensures r.Queued? <==>
      exists k :: Latest(old(store.rows), project, executionId, k) && Retriable(old(store.rows)[k], k.id == previousId, workspaceThere)
    ensures r.Queued? ==> forall k :: Latest(old(store.rows), project, executionId, k) ==>
      && r.key.project == project && store.rows == old(store.rows)[r.key := store.rows[r.key]]
      && NextAttempt(old(store.rows)[k], k.id, store.rows[r.key])
    ensures !r.Queued? ==> store.Contents() == old(store.Contents())
  {
    hide TableInv, Latest, FirstRefusal, Create, CanCreate, Busy, RetryDraft;
    var latest := store.GetLatestAttempt(project, executionId);
    if latest == None {
      NoLatest(store.rows, project, executionId);
      return NotFound;
    }
    var k := latest.value;
    ghost var db := store.Contents();
    LatestIsRow(store.rows, project, executionId, k);
    var row := store.rows[k];
    forall l | Latest(store.rows, project, executionId, l) ensures l == k {
      LatestUnique(db, project, executionId, k, l);
    }
    RefusalMeans(row, k.id, previousId, workspaceThere);
    var reason := Check(row, k.id, previousId, workspaceThere);
    if reason.Some? {
      return Rejected(reason.value);
    }
    LatestFailedIsFree(db, k);
    var busy := store.WorkspaceBusy(project, row.workspaceId);
    if busy {
      return Rejected(WorkspaceInUse);
    }
    RetryCreates(db, k);
    var e := RetryExecution(project, k, row);
    var ok := store.CreateExecution(e);
    CreatedRow(db, project, RetryDraft(k, row));
    ExecutionPositive(db, k);
    RetryRow(k, row, e.id);
    r := Queued(Key(project, e.id));
  }

  lemma NoLatest(rows: map<Key, Row>, project: string, executionId: nat)
    requires Key(project, executionId) !in rows || forall k :: k in rows && k.project == project ==> rows[k].executionId != executionId
    ensures forall k :: !Latest(rows, project, executionId, k)
  {
  }

  lemma LatestIsRow(rows: map<Key, Row>, project: string, executionId: nat, k: Key)
    requires Latest(rows, project, executionId, k)
    ensures k in rows && k.project == project && rows[k].executionId == executionId
  {
  }

  /** The checks on the row, in order. */
  method Check(row: Row, latestId: nat, previousId: nat, workspaceThere: bool) returns (r: Option<Reason>)
    ensures r == FirstRefusal(row, latestId, previousId, workspaceThere)
    ensures r == None ==> row.status == ExecFailed && row.source == Git
  {
    if latestId != previousId {
      return Some(NotLatest);
    }
    if row.source != Git {
      return Some(SnapshotSource);
    }
    if row.status != ExecFailed {
      return Some(NotFailed);
    }
    var retryable := HasRetryableSteps(row.steps);
    if !retryable {
      return Some(NothingToRetry);
    }
    if !workspaceThere {
      return Some(WorkspaceGone);
    }
    return None;
  }

  method RetryExecution(project: string, k: Key, row: Row) returns (e: Execution)
    ensures fresh(e) && e.project == project && e.AsDraft() == RetryDraft(k, row)
  {
    e := new Execution(project, Retry, Git, row.commitSha);
    e.executionId := row.executionId;
    e.attempt := row.attempt + 1;
    e.previousAttemptId := Some(k.id);
    e.workspaceId := Some(row.workspaceId);
  }

  /** Inserting the next attempt keeps the table sound. */
  lemma RetryCreates(db: Db, k: Key)
    requires TableInv(db) && k in db.rows && db.rows[k].status == ExecFailed && db.rows[k].source == Git
    ensures TableInv(Create(db, k.project, RetryDraft(k, db.rows[k])))
  {
    hide TableInv, Create;
    assert Key(k.project, k.id) == k;
    CreateTable(db, k.project, RetryDraft(k, db.rows[k]));
  }

  lemma CreatedRow(db: Db, project: string, d: Draft)
    requires CanCreate(db, project, d)
    ensures var k := Key(project, db.seqs[project] + 1);
            && k !in db.rows && k in Create(db, project, d).rows && Create(db, project, d).rows[k] == RowOf(d, k.id)
            && RowOf(d, k.id).status == ExecPending
            && Create(db, project, d).rows == db.rows[k := RowOf(d, k.id)]
  {
  }

  /** No execution goes by an id that has not been given out. */
  lemma FreshRoot(db: Db, project: string, d: Draft)
    requires TableInv(db) && d.executionId == 0
    ensures CanCreate(db, project, d) <==> project in db.seqs
  {
    hide Chained, Unique;
    if project in db.seqs {
      var id := db.seqs[project] + 1;
      forall k | k in db.rows && k.project == project ensures db.rows[k].executionId != id {
        RootPositive(db, k);
      }
    }
  }

  /** A rebuild starts a new execution, in a workspace of its own, that names the one it rebuilds. */
  method EnqueueRebuild(store: ExecutionStore, project: string, previous: Row) returns (ok: bool, key: Key)
    requires TableInv(store.Contents())
    modifies store
    ensures TableInv(store.Contents())
    ensures ok <==> project in old(store.seqs)
    ensures !ok ==> store.Contents() == old(store.Contents())
    ensures ok ==> key !in old(store.rows) && key.project == project && store.rows.Keys == old(store.rows).Keys + {key}
    ensures ok ==>
      && store.rows[key].executionId == key.id && store.rows[key].attempt == 1 && store.rows[key].workspaceId == key.id
      && store.rows[key].trigger == Rebuild && store.rows[key].parentId == Some(previous.executionId)
      && store.rows[key].source == Git && store.rows[key].commitSha == previous.commitSha
      && store.rows[key].status == ExecPending && store.rows[key].steps == [] && !store.rows[key].cancelRequested
    ensures forall k :: k in old(store.rows) ==> k in store.rows && store.rows[k] == old(store.rows)[k]
  {
    hide TableInv, CanCreate;
    var e := new Execution(project, Rebuild, Git, previous.commitSha);
    e.parentId := Some(previous.executionId);
    ghost var db, d := store.Contents(), e.AsDraft();
    FreshRoot(db, project, d);
    CreateTable(db, project, d);
    ok := store.CreateExecution(e);
    key := Key(project, e.id);
    if ok {
      CreatedRow(db, project, d);
    }
  }

  /** A cancel request goes to the latest attempt of the execution. */
  method CancelExecution(store: ExecutionStore, project: string, executionId: nat) returns (found: bool)
    requires TableInv(store.Contents())
    modifies store`rows
    ensures found <==> exists k :: Latest(old(store.rows), project, executionId, k)
    ensures forall k :: Latest(old(store.rows), project, executionId, k) ==> store.rows == RequestCancel(old(store.rows), k)
    ensures forall k :: Latest(old(store.rows), project, executionId, k) ==> Stopped(store.rows, k)
    ensures !found ==> store.rows == old(store.rows)
    ensures forall l :: l in old(store.rows) && !Latest(old(store.rows), project, executionId, l) ==>
      l in store.rows && store.rows[l] == old(store.rows)[l]
    ensures forall k :: Latest(old(store.rows), project, executionId, k) ==>
      k in old(store.rows) && k in store.rows && store.rows[k].cancelRequested && store.rows[k].status == old(store.rows)[k].status
  {
    hide TableInv, Latest;
    var latest := store.GetLatestAttempt(project, executionId);
    if latest == None {
      NoLatest(store.rows, project, executionId);
      return false;
    }
    ghost var rows := store.rows;
    forall l | Latest(rows, project, executionId, l) ensures l == latest.value {
      LatestUnique(store.Contents(), project, executionId, latest.value, l);
    }
    LatestIsRow(rows, project, executionId, latest.value);
    store.SetCancelRequested(latest.value);
    found := true;
  }
}
