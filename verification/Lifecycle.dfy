/**
 The life of attempts, as a transition system over the table: workers that select, claim, run and
 finish attempts, callers that queue, cancel and retry them, and restarts of the server. Every
 statement is one transition, so the read, the checks and the insertion of a retry interleave with
 everything else, and so do the two halves of a claim and of the concurrency-group gate. A claim
 selects the pending row with the smallest id that no other claim has locked, so any of them.
 */
module Lifecycle {
  import opened Steps
  import opened Outcome
  import opened Store

  /** How far an attempt has come with its concurrency group. */
  datatype Gate = Ungated | Written | Past

  /** `group` is the concurrency group a worker writes with every update of its attempt. */
  datatype Worker = Idle | Selected(key: Key) | Working(key: Key, group: string, gate: Gate)

  datatype Phase =
    | Reading
    | Checked(prev: Key, row: Row)
    | Clear(prev: Key, row: Row)
    | Inserted(key: Key)
    | Refused

  /** A request to retry: the execution, the attempt the caller has in mind, and how far it has come. */
  datatype Call = Call(project: string, executionId: nat, previousId: nat, phase: Phase)

  datatype State = State(db: Db, workers: seq<Worker>, calls: seq<Call>)
  {
    function WithRows(rows: map<Key, Row>): State {
      this.(db := db.(rows := rows))
    }

    function WithWorker(w: nat, worker: Worker): State
      requires w < |workers|
    {
      this.(workers := workers[w := worker])
    }

    function WithPhase(c: nat, phase: Phase): State
      requires c < |calls|
    {
      this.(calls := calls[c := calls[c].(phase := phase)])
    }
  }

  datatype Action =
    | Select(w: nat, key: Key)
    | ClaimSelected(w: nat, name: string)
    | Persist(w: nat, image: Image)
    | WriteGroup(w: nat, image: Image)
    | CancelOthers(w: nat)
    | Finish(w: nat, image: Image)
    | Enqueue(project: string, draft: Draft)
    | Cancel(key: Key)
    | BeginRetry(project: string, executionId: nat, previousId: nat)
    | ReadLatest(c: nat, key: Key, workspaceThere: bool)
    | ReadNothing(c: nat)
    | CheckBusy(c: nat)
    | InsertRetry(c: nat)
    | Restart

  /** Whether an attempt may be retried, as far as its own row tells. */
  predicate MayRetry(row: Row, latestId: nat, previousId: nat, workspaceThere: bool) {
    latestId == previousId && row.source == Git && row.status == ExecFailed && Retryable(row.steps) && workspaceThere
  }

  function RetryDraft(prev: Key, row: Row): Draft {
    Draft(row.executionId, row.attempt + 1, Some(row.workspaceId), Some(prev.id), Retry, Git, row.commitSha)
  }

  ghost predicate Enabled(s: State, a: Action) {
    match a
    case Select(w, key) =>
      w < |s.workers| && s.workers[w].Idle? && key in s.db.rows && s.db.rows[key].status == ExecPending
    case ClaimSelected(w, name) => w < |s.workers| && s.workers[w].Selected?
    case Persist(w, image) =>
      w < |s.workers| && s.workers[w].Working? && image.status == ExecRunning && image.group == s.workers[w].group
    case WriteGroup(w, image) =>
      && w < |s.workers| && s.workers[w].Working? && s.workers[w].gate == Ungated
      && image.status == ExecRunning && image.group != ""
    case CancelOthers(w) => w < |s.workers| && s.workers[w].Working? && s.workers[w].gate == Written
    case Finish(w, image) =>
      w < |s.workers| && s.workers[w].Working? && Terminal(image.status) && image.group == s.workers[w].group
    case Enqueue(project, draft) => draft.executionId == 0 && draft.workspaceId == None && draft.trigger != Retry
    case Cancel(key) => key in s.db.rows
    case BeginRetry(project, executionId, previousId) => true
    case ReadLatest(c, key, workspaceThere) =>
      c < |s.calls| && s.calls[c].phase.Reading? && Latest(s.db.rows, s.calls[c].project, s.calls[c].executionId, key)
    case ReadNothing(c) =>
      && c < |s.calls| && s.calls[c].phase.Reading?
      && !exists key :: Latest(s.db.rows, s.calls[c].project, s.calls[c].executionId, key)
    case CheckBusy(c) => c < |s.calls| && s.calls[c].phase.Checked?
    case InsertRetry(c) => c < |s.calls| && s.calls[c].phase.Clear?
    case Restart => true
  }

  function Apply(s: State, a: Action): State
    requires Enabled(s, a)
  {
    match a
    case Select(w, key) => s.WithWorker(w, Selected(key))
    case ClaimSelected(w, name) =>
      var key := s.workers[w].key;
      if key in s.db.rows && s.db.rows[key].status == ExecPending then
        s.WithRows(Claim(s.db.rows, key, name)).WithWorker(w, Working(key, s.db.rows[key].group, Ungated))
      else s.WithWorker(w, Idle)
    case Persist(w, image) => s.WithRows(Update(s.db.rows, s.workers[w].key, image))
    case WriteGroup(w, image) =>
      s.WithRows(Update(s.db.rows, s.workers[w].key, image)).WithWorker(w, Working(s.workers[w].key, image.group, Written))
    case CancelOthers(w) =>
      var me := s.workers[w];
      s.WithRows(CancelGroup(s.db.rows, me.key.project, me.group, me.key.id)).WithWorker(w, me.(gate := Past))
    case Finish(w, image) => s.WithRows(Update(s.db.rows, s.workers[w].key, image)).WithWorker(w, Idle)
    case Enqueue(project, draft) => s.(db := Create(s.db, project, draft))
    case Cancel(key) => s.WithRows(RequestCancel(s.db.rows, key))
    case BeginRetry(project, executionId, previousId) => s.(calls := s.calls + [Call(project, executionId, previousId, Reading)])
    case ReadLatest(c, key, workspaceThere) =>
      var row := s.db.rows[key];
      s.WithPhase(c, if MayRetry(row, key.id, s.calls[c].previousId, workspaceThere) then Checked(key, row) else Refused)
    case ReadNothing(c) => s.WithPhase(c, Refused)
    case CheckBusy(c) =>
      var p := s.calls[c].phase;
      s.WithPhase(c, if Busy(s.db.rows, p.prev.project, p.row.workspaceId) then Refused else Clear(p.prev, p.row))
    case InsertRetry(c) =>
      var p := s.calls[c].phase;
      var draft := RetryDraft(p.prev, p.row);
      if CanCreate(s.db, p.prev.project, draft) then
        s.(db := Create(s.db, p.prev.project, draft)).WithPhase(c, Inserted(Key(p.prev.project, s.db.seqs[p.prev.project] + 1)))
      else s.WithPhase(c, Refused)
    case Restart => State(s.db.(rows := Requeue(s.db.rows)), seq(|s.workers|, _ => Idle), [])
  }

  ghost predicate Next(s: State, t: State) {
    exists a :: Enabled(s, a) && t == Apply(s, a)
  }

  /** The server starts with no attempts, some projects, and idle workers. */
  ghost predicate Init(s: State) {
    && s.db.rows == map[] && (forall p :: p in s.db.seqs ==> s.db.seqs[p] == 0)
    && (forall w :: 0 <= w < |s.workers| ==> s.workers[w].Idle?) && s.calls == []
  }

  ghost predicate IsRun(run: seq<State>) {
    run != [] && Init(run[0]) && forall i :: 0 <= i < |run| - 1 ==> Next(run[i], run[i + 1])
  }

  // ---------------------------------------------------------------- how rows change

  /** The only ways a status changes. */
  predicate Edge(a: ExecStatus, b: ExecStatus) {
    || a == b
    || (a == ExecPending && b == ExecRunning)
    || (a == ExecRunning && (b == ExecPending || Terminal(b)))
  }

  ghost predicate RowEvolves(a: Row, b: Row) {
    SameIdentity(a, b) && Edge(a.status, b.status) && (a.cancelRequested ==> b.cancelRequested)
  }

  ghost predicate Evolves(rows: map<Key, Row>, rows': map<Key, Row>) {
    forall k :: k in rows ==> k in rows' && RowEvolves(rows[k], rows'[k])
  }

  /** An insertion adds one pending row under the next id. */
  ghost predicate Inserts(db: Db, db': Db, project: string, row: Row) {
    && project in db.seqs && Key(project, db.seqs[project] + 1) !in db.rows
    && !Taken(db.rows, project, row.executionId, row.attempt)
    && row.status == ExecPending
    && db' == Db(db.rows[Key(project, db.seqs[project] + 1) := row], db.seqs[project := db.seqs[project] + 1])
  }

  // ---------------------------------------------------------------- the invariant

  ghost predicate KeysOk(db: Db) {
    forall k :: k in db.rows ==> k.project in db.seqs && 1 <= k.id <= db.seqs[k.project]
  }

  /** A first attempt is the root of its execution; every attempt works in the root's workspace. */
  ghost predicate Rooted(rows: map<Key, Row>) {
    forall k :: k in rows ==>
      && rows[k].attempt >= 1 && rows[k].workspaceId == rows[k].executionId
      && (rows[k].attempt == 1 ==> rows[k].executionId == k.id && rows[k].trigger != Retry)
  }

  ghost predicate Follows(rows: map<Key, Row>, k: Key)
    requires k in rows
  {
    && rows[k].parentId.Some?
    && var p := Key(k.project, rows[k].parentId.value);
       && p in rows && rows[p].executionId == rows[k].executionId
       && rows[p].attempt + 1 == rows[k].attempt && rows[p].status == ExecFailed
       && rows[k].trigger == Retry && rows[k].source == Git && rows[p].source == Git
  }

  /** Every later attempt is a retry that follows one that has failed for good. */
  ghost predicate Chained(rows: map<Key, Row>) {
    forall k :: k in rows && rows[k].attempt > 1 ==> Follows(rows, k)
  }

  predicate SameAttempt(a: Row, b: Row) {
    a.executionId == b.executionId && a.attempt == b.attempt
  }

  ghost predicate Unique(rows: map<Key, Row>) {
    forall k, l :: k in rows && l in rows && k.project == l.project && SameAttempt(rows[k], rows[l]) ==> k == l
  }

  ghost predicate Works(rows: map<Key, Row>, worker: Worker) {
    worker.Working? ==>
      && worker.key in rows && rows[worker.key].status == ExecRunning && rows[worker.key].group == worker.group
      && (worker.gate != Ungated ==> worker.group != "")
  }

  ghost predicate Owned(rows: map<Key, Row>, workers: seq<Worker>) {
    forall w :: 0 <= w < |workers| ==> Works(rows, workers[w])
  }

  /** No attempt is run by two workers. */
  ghost predicate Exclusive(workers: seq<Worker>) {
    forall v, w :: 0 <= v < w < |workers| && workers[v].Working? && workers[w].Working? ==> workers[v].key != workers[w].key
  }

  ghost predicate Held(workers: seq<Worker>, key: Key) {
    exists w :: 0 <= w < |workers| && workers[w].Working? && workers[w].key == key
  }

  /** No attempt is left running without a worker. */
  ghost predicate Attended(rows: map<Key, Row>, workers: seq<Worker>) {
    forall k :: k in rows && rows[k].status == ExecRunning ==> Held(workers, k)
  }

  ghost predicate Rivals(v: Worker, w: Worker) {
    && v.Working? && w.Working? && v.gate == Past && w.gate == Past
    && v.key.project == w.key.project && v.group == w.group
  }

  /** An attempt that has been asked to stop. */
  predicate Stopped(rows: map<Key, Row>, key: Key) {
    key in rows && rows[key].cancelRequested
  }

  /** Of two attempts of a group past the gate, one has been asked to stop. */
  ghost predicate Gated(rows: map<Key, Row>, workers: seq<Worker>) {
    forall v, w :: 0 <= v < w < |workers| && Rivals(workers[v], workers[w]) ==>
      Stopped(rows, workers[v].key) || Stopped(rows, workers[w].key)
  }

  ghost predicate CallOk(rows: map<Key, Row>, call: Call) {
    call.phase.Checked? || call.phase.Clear? ==>
      && call.phase.prev in rows && rows[call.phase.prev].status == ExecFailed
      && SameIdentity(call.phase.row, rows[call.phase.prev])
  }

  ghost predicate CallsOk(rows: map<Key, Row>, calls: seq<Call>) {
    forall c :: 0 <= c < |calls| ==> CallOk(rows, calls[c])
  }

  /** Past its checks, a retry is of an execution from the repository. */
  ghost predicate CallsFromGit(calls: seq<Call>) {
    forall c :: 0 <= c < |calls| && (calls[c].phase.Checked? || calls[c].phase.Clear?) ==> calls[c].phase.row.source == Git
  }

  ghost predicate TableInv(db: Db) {
    KeysOk(db) && Rooted(db.rows) && Chained(db.rows) && Unique(db.rows)
  }

  ghost predicate Inv(s: State) {
    && TableInv(s.db)
    && Owned(s.db.rows, s.workers) && Exclusive(s.workers) && Attended(s.db.rows, s.workers)
    && Gated(s.db.rows, s.workers) && CallsOk(s.db.rows, s.calls) && CallsFromGit(s.calls)
  }

  // ---------------------------------------------------------------- each step changes rows in one of two ways

  /** Rows only evolve. */
  ghost predicate Quiet(db: Db, db': Db) {
    db'.seqs == db.seqs && db'.rows.Keys == db.rows.Keys && Evolves(db.rows, db'.rows)
  }

  predicate Queues(a: Action) {
    a.Enqueue? || a.InsertRetry?
  }

  lemma UpdateEvolves(rows: map<Key, Row>, key: Key, image: Image)
    requires key in rows ==> Edge(rows[key].status, image.status)
    ensures Update(rows, key, image).Keys == rows.Keys && Evolves(rows, Update(rows, key, image))
  {
  }

  lemma ClaimEvolves(rows: map<Key, Row>, key: Key, name: string)
    ensures Claim(rows, key, name).Keys == rows.Keys && Evolves(rows, Claim(rows, key, name))
  {
  }

  lemma GroupEvolves(rows: map<Key, Row>, project: string, group: string, except: nat)
    ensures CancelGroup(rows, project, group, except).Keys == rows.Keys
    ensures Evolves(rows, CancelGroup(rows, project, group, except))
  {
  }

  lemma CancelEvolves(rows: map<Key, Row>, key: Key)
    ensures RequestCancel(rows, key).Keys == rows.Keys && Evolves(rows, RequestCancel(rows, key))
  {
  }

  lemma RequeueEvolves(rows: map<Key, Row>)
    ensures Requeue(rows).Keys == rows.Keys && Evolves(rows, Requeue(rows))
  {
  }

  lemma StaysEvolves(rows: map<Key, Row>)
    ensures Evolves(rows, rows)
  {
  }

  /** Every transition but the two insertions only evolves the rows there are. */
  lemma StepQuiet(s: State, a: Action)
    requires Enabled(s, a) && Owned(s.db.rows, s.workers) && !Queues(a)
    ensures Quiet(s.db, Apply(s, a).db)
  {
    hide Evolves, Update, Claim, CancelGroup, RequestCancel, Requeue, Create, CanCreate, Busy, Latest, MayRetry;
    var rows := s.db.rows;
    StaysEvolves(rows);
    match a
    case ClaimSelected(w, name) => ClaimEvolves(rows, s.workers[w].key, name);
    case Persist(w, image) => assert Works(rows, s.workers[w]); UpdateEvolves(rows, s.workers[w].key, image);
    case WriteGroup(w, image) => assert Works(rows, s.workers[w]); UpdateEvolves(rows, s.workers[w].key, image);
    case CancelOthers(w) => GroupEvolves(rows, s.workers[w].key.project, s.workers[w].group, s.workers[w].key.id);
    case Finish(w, image) => assert Works(rows, s.workers[w]); UpdateEvolves(rows, s.workers[w].key, image);
    case Cancel(key) => CancelEvolves(rows, key);
    case Restart => RequeueEvolves(rows);
    case _ =>
  }

  // ---------------------------------------------------------------- the table

  lemma QuietTable(db: Db, db': Db)
    requires TableInv(db) && Quiet(db, db')
    ensures TableInv(db')
  {
    forall k | k in db'.rows && db'.rows[k].attempt > 1 ensures Follows(db'.rows, k) {
      assert k in db.rows && Follows(db.rows, k);
      assert Key(k.project, db.rows[k].parentId.value) in db.rows;
    }
    QuietRest(db, db');
  }

  lemma QuietRest(db: Db, db': Db)
    requires KeysOk(db) && Rooted(db.rows) && Unique(db.rows) && Quiet(db, db')
    ensures KeysOk(db') && Rooted(db'.rows) && Unique(db'.rows)
  {
  }

  /** A draft for a new execution, or for the attempt after one that has failed for good. */
  ghost predicate DraftOk(db: Db, project: string, d: Draft) {
    || (d.executionId == 0 && d.workspaceId == None && d.trigger != Retry)
    || (d.parentId.Some? && var p := Key(project, d.parentId.value);
        && p in db.rows && db.rows[p].status == ExecFailed && db.rows[p].executionId == d.executionId
        && d.attempt == db.rows[p].attempt + 1 && d.workspaceId == Some(db.rows[p].workspaceId)
        && d.trigger == Retry && d.source == Git && db.rows[p].source == Git)
  }

  lemma RootPositive(db: Db, k: Key)
    requires KeysOk(db) && Rooted(db.rows) && Chained(db.rows) && k in db.rows
    ensures db.rows[k].executionId >= 1 && Key(k.project, db.rows[k].executionId) in db.rows
    decreases db.rows[k].attempt
  {
    if db.rows[k].attempt > 1 {
      assert Follows(db.rows, k);
      RootPositive(db, Key(k.project, db.rows[k].parentId.value));
    }
  }

  lemma CreateTable(db: Db, project: string, d: Draft)
    requires TableInv(db) && DraftOk(db, project, d)
    ensures TableInv(Create(db, project, d))
  {
    hide KeysOk, Rooted, Chained, Unique, Taken, RowOf, DraftOk;
    if CanCreate(db, project, d) {
      var id := db.seqs[project] + 1;
      var row := RowOf(d, id);
      var k := Key(project, id);
      NewRow(db, project, d);
      InsertRest(db, project, row);
      InsertChained(db.rows, k, row);
    }
  }

  /** What the new row is. */
  lemma NewRow(db: Db, project: string, d: Draft)
    requires TableInv(db) && DraftOk(db, project, d) && CanCreate(db, project, d)
    ensures var row := RowOf(d, db.seqs[project] + 1);
            && Inserts(db, Create(db, project, d), project, row)
            && row.attempt >= 1 && row.workspaceId == row.executionId
            && (row.attempt == 1 ==> row.executionId == db.seqs[project] + 1 && row.trigger != Retry)
            && (row.attempt > 1 ==> row.parentId.Some? && var p := Key(project, row.parentId.value);
                  p in db.rows && db.rows[p].status == ExecFailed && db.rows[p].executionId == row.executionId
                  && db.rows[p].attempt + 1 == row.attempt
                  && row.trigger == Retry && row.source == Git && db.rows[p].source == Git)
  {
    hide Taken, Unique;
    if d.executionId != 0 {
      assert d.parentId.Some?;
      var p := Key(project, d.parentId.value);
      assert db.rows[p].attempt >= 1;
    } else if d.parentId.Some? && Key(project, d.parentId.value) in db.rows {
      RootPositive(db, Key(project, d.parentId.value));
    }
  }

  lemma InsertRest(db: Db, project: string, row: Row)
    requires KeysOk(db) && Rooted(db.rows) && Unique(db.rows) && project in db.seqs
    requires !Taken(db.rows, project, row.executionId, row.attempt) && Key(project, db.seqs[project] + 1) !in db.rows
    requires row.attempt >= 1 && row.workspaceId == row.executionId
    requires row.attempt == 1 ==> row.executionId == db.seqs[project] + 1 && row.trigger != Retry
    ensures var id := db.seqs[project] + 1;
            var db' := Db(db.rows[Key(project, id) := row], db.seqs[project := id]);
            KeysOk(db') && Rooted(db'.rows) && Unique(db'.rows)
  {
  }

  lemma InsertChained(rows: map<Key, Row>, k: Key, row: Row)
    requires Chained(rows) && k !in rows
    requires row.attempt > 1 ==> row.parentId.Some? && var p := Key(k.project, row.parentId.value);
               p in rows && rows[p].status == ExecFailed && rows[p].executionId == row.executionId && rows[p].attempt + 1 == row.attempt
               && row.trigger == Retry && row.source == Git && rows[p].source == Git
    ensures Chained(rows[k := row])
  {
    var rows' := rows[k := row];
    forall l | l in rows' && rows'[l].attempt > 1 ensures Follows(rows', l) {
      assert l != k ==> Follows(rows, l);
    }
  }

  // ---------------------------------------------------------------- workers

  /** A row keeps what its worker relies on. */
  ghost predicate Kept(rows: map<Key, Row>, rows': map<Key, Row>, key: Key) {
    key in rows ==> key in rows' && rows'[key].status == rows[key].status && rows'[key].group == rows[key].group
  }

  /** A write to its own attempt by one worker leaves the attempts of the others alone. */
  lemma OthersKept(s: State, w: nat, rows': map<Key, Row>, worker: Worker)
    requires Owned(s.db.rows, s.workers) && Exclusive(s.workers) && w < |s.workers| && s.workers[w].Working?
    requires forall k :: k in s.db.rows && k != s.workers[w].key ==> k in rows' && rows'[k] == s.db.rows[k]
    requires Works(rows', worker) && (worker.Working? ==> worker.key == s.workers[w].key)
    ensures Owned(rows', s.workers[w := worker]) && Exclusive(s.workers[w := worker])
  {
    var workers' := s.workers[w := worker];
    forall v | 0 <= v < |workers'| ensures Works(rows', workers'[v]) {
      assert Works(s.db.rows, s.workers[v]);
      if v != w && s.workers[v].Working? {
        assert s.workers[v].key != s.workers[w].key;
      }
    }
  }

  /** A change that keeps every row's status and group keeps every worker. */
  lemma AllKept(s: State, rows': map<Key, Row>)
    requires Owned(s.db.rows, s.workers) && forall k :: k in s.db.rows ==> Kept(s.db.rows, rows', k)
    ensures Owned(rows', s.workers)
  {
    forall v | 0 <= v < |s.workers| ensures Works(rows', s.workers[v]) {
      assert Works(s.db.rows, s.workers[v]);
    }
  }

  lemma ClaimWorkers(s: State, w: nat, key: Key, name: string)
    requires Owned(s.db.rows, s.workers) && Exclusive(s.workers) && w < |s.workers|
    requires key in s.db.rows && s.db.rows[key].status == ExecPending
    ensures var worker := Working(key, s.db.rows[key].group, Ungated);
            Owned(Claim(s.db.rows, key, name), s.workers[w := worker]) && Exclusive(s.workers[w := worker])
  {
    var workers' := s.workers[w := Working(key, s.db.rows[key].group, Ungated)];
    forall v | 0 <= v < |workers'| ensures Works(Claim(s.db.rows, key, name), workers'[v]) {
      assert Works(s.db.rows, s.workers[v]);
    }
    forall v | 0 <= v < |s.workers| && s.workers[v].Working? ensures s.workers[v].key != key {
      assert Works(s.db.rows, s.workers[v]);
    }
  }

  lemma IdleWorker(s: State, w: nat, worker: Worker)
    requires Owned(s.db.rows, s.workers) && Exclusive(s.workers) && w < |s.workers| && !worker.Working?
    ensures Owned(s.db.rows, s.workers[w := worker]) && Exclusive(s.workers[w := worker])
  {
  }

  lemma UpdateOthers(rows: map<Key, Row>, key: Key, image: Image)
    ensures forall k :: k in rows && k != key ==> k in Update(rows, key, image) && Update(rows, key, image)[k] == rows[k]
    ensures key in rows ==> key in Update(rows, key, image)
    ensures key in rows ==> Update(rows, key, image)[key].status == image.status && Update(rows, key, image)[key].group == image.group
  {
  }

  lemma CancelsKeep(rows: map<Key, Row>, project: string, group: string, except: nat, key: Key)
    ensures forall k :: k in rows ==> Kept(rows, CancelGroup(rows, project, group, except), k)
    ensures forall k :: k in rows ==> Kept(rows, RequestCancel(rows, key), k)
  {
  }

  lemma CreateKeeps(db: Db, project: string, d: Draft)
    ensures forall k :: k in db.rows ==> k in Create(db, project, d).rows && Create(db, project, d).rows[k] == db.rows[k]
  {
  }

  /** Workers own what they run, one each, after every transition. */
  lemma WorkersStep(s: State, a: Action)
    requires Enabled(s, a) && Owned(s.db.rows, s.workers) && Exclusive(s.workers)
    ensures Owned(Apply(s, a).db.rows, Apply(s, a).workers) && Exclusive(Apply(s, a).workers)
  {
    hide Owned, Exclusive, Update, Claim, CancelGroup, RequestCancel, Requeue, Create, CanCreate, Busy, Latest, MayRetry;
    var rows := s.db.rows;
    match a
    case Select(w, key) => IdleWorker(s, w, Selected(key));
    case ClaimSelected(w, name) =>
      var key := s.workers[w].key;
      if key in rows && rows[key].status == ExecPending {
        ClaimWorkers(s, w, key, name);
      } else {
        IdleWorker(s, w, Idle);
      }
    case Persist(w, image) =>
      OwnedAt(rows, s.workers, w);
      PersistWorkers(s, w, image, s.workers[w]);
      assert s.workers[w := s.workers[w]] == s.workers;
    case WriteGroup(w, image) => PersistWorkers(s, w, image, Working(s.workers[w].key, image.group, Written));
    case CancelOthers(w) => GateWorkers(s, w);
    case Finish(w, image) => PersistWorkers(s, w, image, Idle);
    case Enqueue(project, draft) => CreateKeeps(s.db, project, draft); AllKept(s, Apply(s, a).db.rows);
    case Cancel(key) => CancelsKeep(rows, "", "", 0, key); AllKept(s, Apply(s, a).db.rows);
    case InsertRetry(c) =>
      CreateKeeps(s.db, s.calls[c].phase.prev.project, RetryDraft(s.calls[c].phase.prev, s.calls[c].phase.row));
      AllKept(s, Apply(s, a).db.rows);
    case Restart => RestartWorkers(Apply(s, a));
    case _ =>
  }

  lemma OwnedAt(rows: map<Key, Row>, workers: seq<Worker>, w: nat)
    requires Owned(rows, workers) && w < |workers|
    ensures Works(rows, workers[w])
  {
  }

  lemma PersistWorkers(s: State, w: nat, image: Image, worker: Worker)
    requires Owned(s.db.rows, s.workers) && Exclusive(s.workers) && w < |s.workers| && s.workers[w].Working?
    requires worker.Working? ==> worker.key == s.workers[w].key && image.status == ExecRunning && image.group == worker.group
    requires worker.Working? && worker.gate != Ungated ==> worker.group != ""
    ensures var rows' := Update(s.db.rows, s.workers[w].key, image);
            Owned(rows', s.workers[w := worker]) && Exclusive(s.workers[w := worker])
  {
    hide Update;
    assert Works(s.db.rows, s.workers[w]);
    UpdateOthers(s.db.rows, s.workers[w].key, image);
    OthersKept(s, w, Update(s.db.rows, s.workers[w].key, image), worker);
  }

  lemma GateWorkers(s: State, w: nat)
    requires Owned(s.db.rows, s.workers) && Exclusive(s.workers) && w < |s.workers| && s.workers[w].Working? && s.workers[w].gate == Written
    ensures var me := s.workers[w];
            Owned(CancelGroup(s.db.rows, me.key.project, me.group, me.key.id), s.workers[w := me.(gate := Past)])
            && Exclusive(s.workers[w := me.(gate := Past)])
  {
    hide CancelGroup;
    var me := s.workers[w];
    var rows' := CancelGroup(s.db.rows, me.key.project, me.group, me.key.id);
    CancelsKeep(s.db.rows, me.key.project, me.group, me.key.id, me.key);
    var workers' := s.workers[w := me.(gate := Past)];
    forall v | 0 <= v < |workers'| ensures Works(rows', workers'[v]) {
      assert Works(s.db.rows, s.workers[v]);
    }
  }

  lemma RestartWorkers(t: State)
    requires forall w :: 0 <= w < |t.workers| ==> t.workers[w].Idle?
    ensures Owned(t.db.rows, t.workers) && Exclusive(t.workers)
  {
  }

  // ---------------------------------------------------------------- no attempt is forgotten

  /** Every row that is running afterwards was running before. */
  ghost predicate NoneStarted(rows: map<Key, Row>, rows': map<Key, Row>) {
    forall k :: k in rows' && rows'[k].status == ExecRunning ==> k in rows && rows[k].status == ExecRunning
  }

  lemma AttendedSame(rows: map<Key, Row>, rows': map<Key, Row>, workers: seq<Worker>, w: nat, worker: Worker)
    requires Attended(rows, workers) && NoneStarted(rows, rows') && w < |workers|
    requires workers[w].Working? ==> worker.Working? && worker.key == workers[w].key
    ensures Attended(rows', workers[w := worker])
  {
    forall k | k in rows' && rows'[k].status == ExecRunning ensures Held(workers[w := worker], k) {
      assert Held(workers, k);
      var v :| 0 <= v < |workers| && workers[v].Working? && workers[v].key == k;
      assert workers[w := worker][v].Working? && workers[w := worker][v].key == k;
    }
  }

  lemma AttendedRows(rows: map<Key, Row>, rows': map<Key, Row>, workers: seq<Worker>)
    requires Attended(rows, workers) && NoneStarted(rows, rows')
    ensures Attended(rows', workers)
  {
    hide Held;
  }

  lemma AttendedClaim(s: State, w: nat, key: Key, name: string)
    requires Attended(s.db.rows, s.workers) && w < |s.workers| && !s.workers[w].Working? && key in s.db.rows
    ensures Attended(Claim(s.db.rows, key, name), s.workers[w := Working(key, s.db.rows[key].group, Ungated)])
  {
    var rows' := Claim(s.db.rows, key, name);
    var workers' := s.workers[w := Working(key, s.db.rows[key].group, Ungated)];
    forall k | k in rows' && rows'[k].status == ExecRunning ensures Held(workers', k) {
      if k == key {
        assert workers'[w].Working? && workers'[w].key == k;
      } else {
        assert Held(s.workers, k);
        var v :| 0 <= v < |s.workers| && s.workers[v].Working? && s.workers[v].key == k;
        assert workers'[v].Working? && workers'[v].key == k;
      }
    }
  }

  lemma AttendedFinish(s: State, w: nat, image: Image)
    requires Attended(s.db.rows, s.workers) && Owned(s.db.rows, s.workers) && w < |s.workers| && s.workers[w].Working?
    requires Terminal(image.status)
    ensures Attended(Update(s.db.rows, s.workers[w].key, image), s.workers[w := Idle])
  {
    var key := s.workers[w].key;
    var rows', workers' := Update(s.db.rows, key, image), s.workers[w := Idle];
    OwnedAt(s.db.rows, s.workers, w);
    forall k | k in rows' && rows'[k].status == ExecRunning ensures Held(workers', k) {
      assert k != key && Held(s.workers, k);
      var v :| 0 <= v < |s.workers| && s.workers[v].Working? && s.workers[v].key == k;
      assert workers'[v].Working? && workers'[v].key == k;
    }
  }

  lemma NoneStartedBy(db: Db, key: Key, image: Image, project: string, group: string, except: nat, d: Draft)
    ensures key in db.rows && db.rows[key].status == ExecRunning ==> NoneStarted(db.rows, Update(db.rows, key, image))
    ensures NoneStarted(db.rows, CancelGroup(db.rows, project, group, except))
    ensures NoneStarted(db.rows, RequestCancel(db.rows, key))
    ensures NoneStarted(db.rows, Create(db, project, d).rows)
    ensures forall k :: k in Requeue(db.rows) ==> Requeue(db.rows)[k].status != ExecRunning
  {
    hide CanCreate, Create, CancelGroup, RequestCancel, NoneStarted;
    CreateStartsNone(db, project, d);
    CancelsStartNone(db.rows, project, group, except, key);
    UpdateStartsNone(db.rows, key, image);
  }

  lemma UpdateStartsNone(rows: map<Key, Row>, key: Key, image: Image)
    ensures key in rows && rows[key].status == ExecRunning ==> NoneStarted(rows, Update(rows, key, image))
  {
  }

  lemma CancelsStartNone(rows: map<Key, Row>, project: string, group: string, except: nat, key: Key)
    ensures NoneStarted(rows, CancelGroup(rows, project, group, except))
    ensures NoneStarted(rows, RequestCancel(rows, key))
  {
  }

  lemma CreateStartsNone(db: Db, project: string, d: Draft)
    ensures NoneStarted(db.rows, Create(db, project, d).rows)
  {
    hide Taken;
  }

  /** Every transition keeps each running attempt in the hands of a worker, a restart by requeuing it. */
  lemma AttendedStep(s: State, a: Action)
    requires Enabled(s, a) && Owned(s.db.rows, s.workers) && Attended(s.db.rows, s.workers)
    ensures Attended(Apply(s, a).db.rows, Apply(s, a).workers)
  {
    hide Owned, Attended, NoneStarted, Update, Claim, CancelGroup, RequestCancel, Requeue, Create, CanCreate, Busy, Latest, MayRetry;
    var rows, rows' := s.db.rows, Apply(s, a).db.rows;
    NothingStarted(rows);
    match a
    case Select(w, key) => AttendedSame(rows, rows', s.workers, w, Selected(key));
    case ClaimSelected(w, name) =>
      var key := s.workers[w].key;
      if key in rows && rows[key].status == ExecPending {
        AttendedClaim(s, w, key, name);
      } else {
        AttendedSame(rows, rows', s.workers, w, Idle);
      }
    case Persist(w, image) => AttendedPersist(s, w, image, s.workers[w]); assert s.workers[w := s.workers[w]] == s.workers;
    case WriteGroup(w, image) => AttendedPersist(s, w, image, Working(s.workers[w].key, image.group, Written));
    case CancelOthers(w) => AttendedGate(s, w);
    case Finish(w, image) => AttendedFinish(s, w, image);
    case Enqueue(project, draft) =>
      NoneStartedBy(s.db, Key("", 0), Image(ExecPending, [], "", "", ""), project, "", 0, draft);
      AttendedRows(rows, rows', s.workers);
    case Cancel(key) =>
      NoneStartedBy(s.db, key, Image(ExecPending, [], "", "", ""), "", "", 0, Draft(0, 0, None, None, Manual, Git, ""));
      AttendedRows(rows, rows', s.workers);
    case InsertRetry(c) =>
      var p := s.calls[c].phase;
      NoneStartedBy(s.db, Key("", 0), Image(ExecPending, [], "", "", ""), p.prev.project, "", 0, RetryDraft(p.prev, p.row));
      AttendedRows(rows, rows', s.workers);
    case Restart => AttendedRestart(s.db, Apply(s, a).workers);
    case _ => AttendedRows(rows, rows', s.workers);
  }

  lemma NothingStarted(rows: map<Key, Row>)
    ensures NoneStarted(rows, rows)
  {
  }

  lemma AttendedPersist(s: State, w: nat, image: Image, worker: Worker)
    requires Attended(s.db.rows, s.workers) && Owned(s.db.rows, s.workers) && w < |s.workers| && s.workers[w].Working?
    requires worker.Working? && worker.key == s.workers[w].key
    ensures Attended(Update(s.db.rows, s.workers[w].key, image), s.workers[w := worker])
  {
    hide Update, Attended, NoneStarted;
    OwnedAt(s.db.rows, s.workers, w);
    NoneStartedBy(s.db, s.workers[w].key, image, "", "", 0, Draft(0, 0, None, None, Manual, Git, ""));
    AttendedSame(s.db.rows, Update(s.db.rows, s.workers[w].key, image), s.workers, w, worker);
  }

  lemma AttendedGate(s: State, w: nat)
    requires Attended(s.db.rows, s.workers) && w < |s.workers| && s.workers[w].Working?
    ensures var me := s.workers[w];
            Attended(CancelGroup(s.db.rows, me.key.project, me.group, me.key.id), s.workers[w := me.(gate := Past)])
  {
    hide CancelGroup, Attended, NoneStarted;
    var me := s.workers[w];
    NoneStartedBy(s.db, me.key, Image(ExecPending, [], "", "", ""), me.key.project, me.group, me.key.id, Draft(0, 0, None, None, Manual, Git, ""));
    AttendedSame(s.db.rows, CancelGroup(s.db.rows, me.key.project, me.group, me.key.id), s.workers, w, me.(gate := Past));
  }

  lemma AttendedRestart(db: Db, workers: seq<Worker>)
    ensures Attended(Requeue(db.rows), workers)
  {
  }

  // ---------------------------------------------------------------- the concurrency gate

  /** Requests to stop are never withdrawn. */
  ghost predicate StopsKept(rows: map<Key, Row>, rows': map<Key, Row>) {
    forall k :: Stopped(rows, k) ==> Stopped(rows', k)
  }

  lemma EvolvesStops(rows: map<Key, Row>, rows': map<Key, Row>)
    requires Evolves(rows, rows')
    ensures StopsKept(rows, rows')
  {
  }

  lemma CreateStops(db: Db, project: string, d: Draft)
    ensures StopsKept(db.rows, Create(db, project, d).rows)
  {
    CreateKeeps(db, project, d);
  }

  /** A worker that is not past the gate has no rivals. */
  lemma GatedReplace(rows: map<Key, Row>, rows': map<Key, Row>, workers: seq<Worker>, w: nat, worker: Worker)
    requires Gated(rows, workers) && StopsKept(rows, rows') && w < |workers|
    requires worker.Working? && worker.gate == Past ==> worker == workers[w]
    ensures Gated(rows', workers[w := worker])
  {
    hide Stopped;
    var workers' := workers[w := worker];
    forall u, v | 0 <= u < v < |workers'| && Rivals(workers'[u], workers'[v])
      ensures Stopped(rows', workers'[u].key) || Stopped(rows', workers'[v].key)
    {
      assert workers'[u] == workers[u] && workers'[v] == workers[v];
    }
  }

  lemma GatedKept(rows: map<Key, Row>, rows': map<Key, Row>, workers: seq<Worker>)
    requires Gated(rows, workers) && StopsKept(rows, rows')
    ensures Gated(rows', workers)
  {
    hide Stopped;
    forall u, v | 0 <= u < v < |workers| && Rivals(workers[u], workers[v])
      ensures Stopped(rows', workers[u].key) || Stopped(rows', workers[v].key)
    {
    }
  }

  /** Going past the gate asks every rival to stop. */
  lemma PastGate(s: State, w: nat)
    requires Owned(s.db.rows, s.workers) && Exclusive(s.workers) && Gated(s.db.rows, s.workers)
    requires w < |s.workers| && s.workers[w].Working? && s.workers[w].gate == Written
    ensures var me := s.workers[w];
            Gated(CancelGroup(s.db.rows, me.key.project, me.group, me.key.id), s.workers[w := me.(gate := Past)])
  {
    var me := s.workers[w];
    var rows' := CancelGroup(s.db.rows, me.key.project, me.group, me.key.id);
    var workers' := s.workers[w := me.(gate := Past)];
    GroupEvolves(s.db.rows, me.key.project, me.group, me.key.id);
    EvolvesStops(s.db.rows, rows');
    forall v | 0 <= v < |s.workers| && v != w && Rivals(workers'[v], workers'[w]) ensures Stopped(rows', workers'[v].key) {
      RivalStopped(s, w, v);
    }
    forall u, v | 0 <= u < v < |workers'| && Rivals(workers'[u], workers'[v])
      ensures Stopped(rows', workers'[u].key) || Stopped(rows', workers'[v].key)
    {
      if u != w && v != w {
        assert Rivals(s.workers[u], s.workers[v]);
      } else if u == w {
        assert Rivals(workers'[v], workers'[w]);
      }
    }
  }

  lemma RivalStopped(s: State, w: nat, v: nat)
    requires Owned(s.db.rows, s.workers) && Exclusive(s.workers)
    requires w < |s.workers| && v < |s.workers| && v != w && s.workers[w].Working? && s.workers[v].Working?
    requires s.workers[v].key.project == s.workers[w].key.project && s.workers[v].group == s.workers[w].group
    ensures var me := s.workers[w];
            Stopped(CancelGroup(s.db.rows, me.key.project, me.group, me.key.id), s.workers[v].key)
  {
    assert Works(s.db.rows, s.workers[v]);
    assert s.workers[v].key != s.workers[w].key;
  }

  lemma GateStep(s: State, a: Action)
    requires Enabled(s, a) && Owned(s.db.rows, s.workers) && Exclusive(s.workers) && Gated(s.db.rows, s.workers)
    ensures Gated(Apply(s, a).db.rows, Apply(s, a).workers)
  {
    hide Owned, Exclusive, Gated, StopsKept, Evolves, Update, Claim, CancelGroup, RequestCancel, Requeue, Create, CanCreate, Busy, Latest, MayRetry;
    var rows, rows' := s.db.rows, Apply(s, a).db.rows;
    assert StopsKept(rows, rows') by {
      StepStops(s, a);
    }
    match a
    case Select(w, key) => GatedReplace(rows, rows', s.workers, w, Selected(key));
    case ClaimSelected(w, name) => GatedReplace(rows, rows', s.workers, w, Apply(s, a).workers[w]);
    case WriteGroup(w, image) => GatedReplace(rows, rows', s.workers, w, Working(s.workers[w].key, image.group, Written));
    case CancelOthers(w) => PastGate(s, w);
    case Finish(w, image) => GatedReplace(rows, rows', s.workers, w, Idle);
    case Restart => AllIdleGated(rows', Apply(s, a).workers);
    case _ => GatedKept(rows, rows', s.workers);
  }

  lemma AllIdleGated(rows: map<Key, Row>, workers: seq<Worker>)
    requires forall w :: 0 <= w < |workers| ==> workers[w].Idle?
    ensures Gated(rows, workers)
  {
  }

  /** No transition withdraws a request to stop, a restart included. */
  lemma StepStops(s: State, a: Action)
    requires Enabled(s, a) && Owned(s.db.rows, s.workers)
    ensures StopsKept(s.db.rows, Apply(s, a).db.rows)
  {
    if Queues(a) {
      QueuesCreate(s, a);
    } else {
      hide Enabled, Apply, Owned, Evolves, StopsKept;
      StepQuiet(s, a);
      EvolvesStops(s.db.rows, Apply(s, a).db.rows);
    }
  }

  lemma QueuesCreate(s: State, a: Action)
    requires Enabled(s, a) && Queues(a)
    ensures StopsKept(s.db.rows, Apply(s, a).db.rows)
    ensures forall k :: k in s.db.rows ==> k in Apply(s, a).db.rows && Apply(s, a).db.rows[k] == s.db.rows[k]
  {
    hide Create, CanCreate, StopsKept;
    var (project, d) := if a.Enqueue? then (a.project, a.draft)
      else (s.calls[a.c].phase.prev.project, RetryDraft(s.calls[a.c].phase.prev, s.calls[a.c].phase.row));
    CreateStops(s.db, project, d);
    CreateKeeps(s.db, project, d);
    EvolvesStops(s.db.rows, s.db.rows) by {
      StaysEvolves(s.db.rows);
    }
  }

  // ---------------------------------------------------------------- retries in flight

  lemma CallKept(rows: map<Key, Row>, rows': map<Key, Row>, call: Call)
    requires CallOk(rows, call) && Evolves(rows, rows')
    ensures CallOk(rows', call)
  {
  }

  lemma CallsKept(rows: map<Key, Row>, rows': map<Key, Row>, calls: seq<Call>)
    requires CallsOk(rows, calls) && Evolves(rows, rows')
    ensures CallsOk(rows', calls)
  {
    hide CallOk, Evolves;
    forall c | 0 <= c < |calls| ensures CallOk(rows', calls[c]) {
      CallKept(rows, rows', calls[c]);
    }
  }

  lemma CallReplaced(rows: map<Key, Row>, calls: seq<Call>, c: nat, phase: Phase)
    requires CallsOk(rows, calls) && c < |calls| && CallOk(rows, calls[c].(phase := phase))
    ensures CallsOk(rows, calls[c := calls[c].(phase := phase)])
  {
    hide CallOk;
  }

  lemma StepEvolves(s: State, a: Action)
    requires Enabled(s, a) && Owned(s.db.rows, s.workers)
    ensures Evolves(s.db.rows, Apply(s, a).db.rows)
  {
    hide Apply, Enabled, Owned;
    if Queues(a) {
      QueuesCreate(s, a);
    } else {
      StepQuiet(s, a);
    }
  }

  /** A retry past its checks still retries an attempt that has failed. */
  lemma CallsStep(s: State, a: Action)
    requires Enabled(s, a) && Owned(s.db.rows, s.workers) && CallsOk(s.db.rows, s.calls)
    ensures CallsOk(Apply(s, a).db.rows, Apply(s, a).calls)
  {
    hide Owned, Evolves, Update, Claim, CancelGroup, RequestCancel, Requeue, Create, CanCreate, Busy, CallsOk;
    var rows' := Apply(s, a).db.rows;
    StepEvolves(s, a);
    CallsKept(s.db.rows, rows', s.calls);
    match a
    case BeginRetry(project, executionId, previousId) => CallAdded(rows', s.calls, Call(project, executionId, previousId, Reading));
    case ReadLatest(c, key, workspaceThere) => CallReplaced(rows', s.calls, c, Apply(s, a).calls[c].phase);
    case ReadNothing(c) => CallReplaced(rows', s.calls, c, Refused);
    case CheckBusy(c) => CallAt(rows', s.calls, c); CallReplaced(rows', s.calls, c, Apply(s, a).calls[c].phase);
    case InsertRetry(c) => CallReplaced(rows', s.calls, c, Apply(s, a).calls[c].phase);
    case Restart => NoCalls(rows');
    case _ =>
  }

  lemma CallsGitStep(s: State, a: Action)
    requires Enabled(s, a) && CallsFromGit(s.calls)
    ensures CallsFromGit(Apply(s, a).calls)
  {
    hide Update, Claim, CancelGroup, RequestCancel, Requeue, Create, CanCreate, Busy, RetryDraft, Latest;
  }

  lemma CallAt(rows: map<Key, Row>, calls: seq<Call>, c: nat)
    requires CallsOk(rows, calls) && c < |calls|
    ensures CallOk(rows, calls[c])
  {
  }

  lemma CallAdded(rows: map<Key, Row>, calls: seq<Call>, call: Call)
    requires CallsOk(rows, calls) && call.phase.Reading?
    ensures CallsOk(rows, calls + [call])
  {
  }

  lemma NoCalls(rows: map<Key, Row>)
    ensures CallsOk(rows, [])
  {
  }

  /** The draft of a retry past its checks is sound. */
  lemma RetryDraftOk(s: State, c: nat)
    requires TableInv(s.db) && CallsOk(s.db.rows, s.calls) && CallsFromGit(s.calls)
    requires c < |s.calls| && (s.calls[c].phase.Checked? || s.calls[c].phase.Clear?)
    ensures var p := s.calls[c].phase; DraftOk(s.db, p.prev.project, RetryDraft(p.prev, p.row))
  {
    hide Chained, Unique, KeysOk;
    CallAt(s.db.rows, s.calls, c);
    var p := s.calls[c].phase;
    assert Key(p.prev.project, p.prev.id) == p.prev;
  }

  // ---------------------------------------------------------------- every run

  lemma InitInv(s: State)
    requires Init(s)
    ensures Inv(s)
  {
  }

  lemma TableStep(s: State, a: Action)
    requires Enabled(s, a) && TableInv(s.db) && Owned(s.db.rows, s.workers) && CallsOk(s.db.rows, s.calls) && CallsFromGit(s.calls)
    ensures TableInv(Apply(s, a).db)
  {
    hide TableInv, Owned, CallsOk, Quiet, Create, CanCreate;
    if a.Enqueue? {
      CreateTable(s.db, a.project, a.draft);
    } else if a.InsertRetry? {
      RetryDraftOk(s, a.c);
      CreateTable(s.db, s.calls[a.c].phase.prev.project, RetryDraft(s.calls[a.c].phase.prev, s.calls[a.c].phase.row));
    } else {
      StepQuiet(s, a);
      hide Apply, Enabled;
      QuietTable(s.db, Apply(s, a).db);
    }
  }

  lemma StepInv(s: State, a: Action)
    requires Inv(s) && Enabled(s, a)
    ensures Inv(Apply(s, a))
  {
    hide Enabled, Apply, TableInv, Owned, Exclusive, Attended, Gated, CallsOk, CallsFromGit;
    CallsGitStep(s, a);
    TableStep(s, a);
    WorkersStep(s, a);
    AttendedStep(s, a);
    GateStep(s, a);
    CallsStep(s, a);
  }

  lemma {:induction false} RunInv(run: seq<State>, i: nat)
    requires IsRun(run) && i < |run|
    ensures Inv(run[i])
  {
    hide Inv, Init;
    if i == 0 {
      InitInv(run[0]);
    } else {
      RunInv(run, i - 1);
      assert Next(run[i - 1], run[i]);
      var a :| Enabled(run[i - 1], a) && run[i] == Apply(run[i - 1], a);
      StepInv(run[i - 1], a);
    }
  }
}
