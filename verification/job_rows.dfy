// The stored jobs, as rows of a table, and what each transaction writes into them.
module JobRows {
  import opened ChannelJobs
  import opened JobStates

  // The columns that the protocol between runner, workers and users depends on. A graph of 0
  // means that the job has no graph uuid, 0 maximal retries that it is retried forever.
  datatype Row = Row(
    state: JobState, retry: nat, maxRetries: nat,
    dependsOn: set<Uuid>, reverseDependsOn: set<Uuid>, graph: nat)

  type Rows = map<Uuid, Row>

  // ---------- Dependencies ----------

  // All jobs of the set that are stored are done. Jobs that are not found are ignored.
  predicate AllDone(rows: Rows, jobs: set<Uuid>) {
    forall p :: p in jobs && p in rows ==> rows[p].state.Done?
  }

  predicate SameGraph(a: Row, b: Row) {
    a.graph != 0 && a.graph == b.graph
  }

  predicate IsParent(rows: Rows, p: Uuid, c: Uuid) {
    p in rows && c in rows && p in rows[c].dependsOn
  }

  // Child c waits, depends on u within the graph of u, and all its parents there are done.
  predicate Enables(rows: Rows, u: Uuid, c: Uuid)
    requires u in rows && c in rows
  {
    && rows[c].state.WaitDependencies? && c in rows[u].reverseDependsOn && SameGraph(rows[u], rows[c])
    && (exists p :: p in rows[c].dependsOn && IsParent(rows, p, c) && SameGraph(rows[u], rows[p]))
    && (forall p :: p in rows[c].dependsOn && IsParent(rows, p, c) && SameGraph(rows[u], rows[p]) ==> rows[p].state.Done?)
  }

  // The children that wait for nothing but u become pending, in one statement.
  function EnqueueWaiting(rows: Rows, u: Uuid): Rows {
    if u in rows then
      map c | c in rows :: if Enables(rows, u, c) then rows[c].(state := JobState.Pending) else rows[c]
    else rows
  }

  // Dependencies and reverse dependencies are converse and stay within one graph.
  ghost predicate LinkedAt(rows: Rows, u: Uuid)
    requires u in rows
  {
    && (forall p :: p in rows[u].dependsOn ==> p in rows && u in rows[p].reverseDependsOn && SameGraph(rows[u], rows[p]))
    && (forall c :: c in rows[u].reverseDependsOn ==> c in rows && u in rows[c].dependsOn)
    && (rows[u].state.WaitDependencies? ==> rows[u].dependsOn != {})
  }

  ghost predicate Linked(rows: Rows) {
    forall u :: u in rows ==> LinkedAt(rows, u)
  }

  ghost predicate SameLinks(a: Row, b: Row) {
    a.dependsOn == b.dependsOn && a.reverseDependsOn == b.reverseDependsOn && a.graph == b.graph
  }

  // ---------- Writes of one job ----------

  function PendingState(parentsDone: bool): JobState {
    if parentsDone then JobState.Pending else WaitDependencies
  }

  // What a job raises while it is performed.
  datatype Outcome =
    | Success
    | NothingToDo
    | Retryable(ignoreRetry: bool)
    | ConcurrencyError
    | Error

  // What a worker does after the job was performed.
  datatype Verdict = Finished | Postponed | Broken

  // One performance of a job: how the retry counter changes and what becomes of the job. Errors
  // of concurrent transactions postpone a job whatever its number of retries.
  function Performed(retry: nat, maxRetries: nat, outcome: Outcome): (nat, Verdict) {
    match outcome
    case Success => (retry + 1, Finished)
    case NothingToDo => (retry + 1, Finished)
    case Retryable(ignore) =>
      if ignore then (retry, Postponed)
      else if maxRetries == 0 || retry + 1 < maxRetries then (retry + 1, Postponed)
      else (retry + 1, Broken)
    case ConcurrencyError => (retry + 1, Postponed)
    case Error => (retry + 1, Broken)
  }

  function FinalState(verdict: Verdict, parentsDone: bool): JobState {
    match verdict
    case Finished => Done
    case Postponed => PendingState(parentsDone)
    case Broken => JobState.Failed
  }

  // What the worker stores when the job has been performed.
  function Finish(row: Row, retry: nat, parentsDone: bool, outcome: Outcome): Row {
    var (count, verdict) := Performed(retry, row.maxRetries, outcome);
    row.(state := FinalState(verdict, parentsDone), retry := count)
  }

  function Requeue(rows: Rows, u: Uuid): Rows
    requires u in rows
  {
    if rows[u].state.WaitDependencies? then rows
    else rows[u := rows[u].(state := PendingState(AllDone(rows, rows[u].dependsOn)), retry := 0)]
  }

  function MarkDone(rows: Rows, u: Uuid): Rows
    requires u in rows
  {
    EnqueueWaiting(rows[u := rows[u].(state := Done)], u)
  }

  function Cancel(rows: Rows, u: Uuid): Rows
    requires u in rows
  {
    rows[u := rows[u].(state := JobState.Cancelled)]
  }

  function SetEnqueued(rows: Rows, u: Uuid): Rows {
    if u in rows then rows[u := rows[u].(state := JobState.Enqueued)] else rows
  }

  // After a request has timed out, and only if no worker has started the job.
  function ResetEnqueued(rows: Rows, u: Uuid): Rows {
    if u in rows && rows[u].state.Enqueued? then rows[u := rows[u].(state := JobState.Pending)] else rows
  }

  // ---------- How these writes keep the links ----------

  lemma RelabelLinked(rows: Rows, rows': Rows)
    requires Linked(rows) && rows'.Keys == rows.Keys
    requires forall u :: u in rows ==> SameLinks(rows[u], rows'[u])
    requires forall u :: u in rows && rows'[u].state.WaitDependencies? ==> rows[u].dependsOn != {}
    ensures Linked(rows')
  {
    forall u | u in rows' ensures LinkedAt(rows', u) {
      assert LinkedAt(rows, u);
    }
  }

  // In a linked table a child that depends on u becomes pending exactly if it waits and all its
  // parents are done; nothing else changes. The two share a graph uuid.
  lemma EnqueueWaitingMeans(rows: Rows, u: Uuid, c: Uuid)
    requires Linked(rows) && u in rows && c in rows
    ensures c in EnqueueWaiting(rows, u)
    ensures u in rows[c].dependsOn ==> rows[u].graph == rows[c].graph != 0
    ensures var enabled := u in rows[c].dependsOn && rows[c].state.WaitDependencies? && AllDone(rows, rows[c].dependsOn);
      EnqueueWaiting(rows, u)[c] == if enabled then rows[c].(state := JobState.Pending) else rows[c]
  {
    assert LinkedAt(rows, u) && LinkedAt(rows, c);
    if u in rows[c].dependsOn {
      assert IsParent(rows, u, c);
      forall p | p in rows[c].dependsOn ensures IsParent(rows, p, c) && SameGraph(rows[u], rows[p]) {
        assert SameGraph(rows[c], rows[p]) && SameGraph(rows[c], rows[u]);
      }
    }
  }
}
