// The requests of workers and the actions of users, as methods on the table of jobs. They are
// proved to do what the steps of the protocol do.
module Controllers {
  import opened ChannelJobs
  import opened JobStates
  import opened JobRows
  import opened Jobs
  import opened RunnerProtocol

  // A stored job has all related jobs in the table.
  lemma RelatedAreStored(rows: Rows, u: Uuid)
    requires Linked(rows) && u in rows
    ensures rows[u].dependsOn * rows.Keys == rows[u].dependsOn
    ensures rows[u].reverseDependsOn * rows.Keys == rows[u].reverseDependsOn
  {
    assert LinkedAt(rows, u);
  }

  // ---------- Workers ----------

  // The statement that enables the children is repeated when it conflicts with another
  // transaction, here for the given number of times.
  method EnqueueDependentJobs(table: JobTable, uuid: Uuid, conflicts: nat) returns (ok: bool)
    modifies table`rows
    ensures ok <==> conflicts <= 5
    ensures table.rows == if ok then EnqueueWaiting(old(table.rows), uuid) else old(table.rows)
  {
    var tries := 0;
    while tries < conflicts
      invariant 0 <= tries <= conflicts && tries <= MAX_TRIES && table.rows == old(table.rows)
    {
      if tries >= MAX_TRIES {
        return false;
      }
      tries := tries + 1;
    }
    table.rows := EnqueueWaiting(table.rows, uuid);
    ok := true;
  }

  // What a request for a job leaves in the table if nobody else writes meanwhile.
  function RunResult(rows: Rows, u: Uuid, outcome: Outcome, conflicts: nat): Rows {
    if u in rows && rows[u].state.Enqueued? then
      var parentsDone := AllDone(rows, rows[u].dependsOn);
      var rows' := rows[u := JobRows.Finish(rows[u].(state := Started), rows[u].retry, parentsDone, outcome)];
      if rows'[u].state.Done? && conflicts <= MAX_TRIES then EnqueueWaiting(rows', u) else rows'
    else rows
  }

  // The related jobs are stored, and the parents were loaded with the given states.
  ghost predicate Loaded(job: Job, rows: Rows, parentsDone: bool)
    reads job, job.dependsOn
  {
    && UuidsOf(job.dependsOn) == job.dependsOnUuids <= rows.Keys
    && (job.reverseDependsOn == {} || UuidsOf(job.reverseDependsOn) == job.reverseDependsOnUuids)
    && job.reverseDependsOnUuids <= rows.Keys
    && job !in job.dependsOn && (AllJobsDone(job.dependsOn) <==> parentsDone)
  }

  method StoreLoaded(table: JobTable, job: Job, ghost parentsDone: bool)
    requires Loaded(job, table.rows, parentsDone)
    modifies job`dependsOn, job`reverseDependsOn, table`rows
    ensures table.rows == old(table.rows)[job.uuid := old(job.AsRow())]
  {
    job.Store(table);
    assert UuidsOf({}) == {};
    assert UuidsOf(job.dependsOn) == job.dependsOnUuids;
    assert UuidsOf(job.reverseDependsOn) == job.reverseDependsOnUuids;
  }

  // Loads an enqueued job and marks it started, in one transaction.
  method Claim(table: JobTable, uuid: Uuid) returns (job: Job)
    requires Linked(table.rows) && uuid in table.rows
    modifies table`rows
    ensures fresh(job) && job.uuid == uuid && fresh(job.dependsOn)
    ensures table.rows == old(table.rows)[uuid := old(table.rows)[uuid].(state := Started)]
    ensures job.AsRow() == table.rows[uuid]
    ensures Loaded(job, table.rows, AllDone(old(table.rows), table.rows[uuid].dependsOn))
  {
    RelatedAreStored(table.rows, uuid);
    job := table.Load(uuid);
    job.SetStarted();
    job.Store(table);
  }

  // Performs a job and stores it by the outcome, in one transaction.
  method PerformJob(table: JobTable, job: Job, outcome: Outcome, ghost parentsDone: bool, now: Time,
                    seconds: Option<Seconds>, pattern: map<nat, Seconds>) returns (verdict: Verdict)
    requires Loaded(job, table.rows, parentsDone)
    modifies table`rows, job
    ensures table.rows == old(table.rows)[job.uuid := JobRows.Finish(old(job.AsRow()), old(job.retry), parentsDone, outcome)]
    ensures verdict == JobRows.Performed(old(job.retry), job.maxRetries, outcome).1
    ensures verdict.Postponed? ==> Delayed(job.eta, job.retry, now, seconds, pattern)
  {
    verdict := job.Perform(outcome);
    hide UuidsOf;
    Conclude(table, job, verdict, parentsDone, now, seconds, pattern);
  }

  method Conclude(table: JobTable, job: Job, verdict: Verdict, ghost parentsDone: bool, now: Time,
                  seconds: Option<Seconds>, pattern: map<nat, Seconds>)
    requires Loaded(job, table.rows, parentsDone)
    modifies table`rows, job
    ensures table.rows == old(table.rows)[job.uuid := old(job.AsRow()).(state := FinalState(verdict, parentsDone))]
    ensures verdict.Postponed? ==> Delayed(job.eta, job.retry, now, seconds, pattern)
  {
    match verdict
    case Finished =>
      job.SetDone();
      StoreLoaded(table, job, parentsDone);
    case Postponed =>
      job.Postpone(now, seconds, pattern);
      ghost var row := job.AsRow();
      SetPendingLoaded(table, job, parentsDone);
      assert job.retry == row.retry;
      StoreLoaded(table, job, parentsDone);
    case Broken =>
      job.SetFailed();
      StoreLoaded(table, job, parentsDone);
  }

  method SetPendingLoaded(table: JobTable, job: Job, ghost parentsDone: bool)
    requires Loaded(job, table.rows, parentsDone)
    modifies job
    ensures Loaded(job, table.rows, parentsDone)
    ensures job.AsRow() == old(job.AsRow()).(state := PendingState(parentsDone)) && job.eta == old(job.eta)
  {
    job.SetPending(table, false);
    assert UuidsOf({}) == {};
  }

  lemma FinishedIsDone(verdict: Verdict, parentsDone: bool)
    ensures FinalState(verdict, parentsDone).Done? <==> verdict.Finished?
  {
  }

  // A whole request.
  method RunJob(table: JobTable, uuid: Uuid, outcome: Outcome, now: Time, seconds: Option<Seconds>,
                pattern: map<nat, Seconds>, conflicts: nat)
    requires Linked(table.rows)
    modifies table`rows
    ensures table.rows == RunResult(old(table.rows), uuid, outcome, conflicts)
  {
    if uuid !in table.rows || !table.rows[uuid].state.Enqueued? {
      return;
    }
    ghost var rows := table.rows;
    hide Linked, EnqueueWaiting, AllDone, RunResult, JobRows.Finish, JobRows.Performed, UuidsOf, SameLinks;
    var job := Claim(table, uuid);
    var verdict := PerformJob(table, job, outcome, AllDone(rows, rows[uuid].dependsOn), now, seconds, pattern);
    if verdict.Finished? {
      var ok := EnqueueDependentJobs(table, uuid, conflicts);
    }
    RunResultIs(rows, uuid, outcome, conflicts);
  }

  lemma RunResultIs(rows: Rows, u: Uuid, outcome: Outcome, conflicts: nat)
    requires u in rows && rows[u].state.Enqueued?
    ensures var started := rows[u := rows[u].(state := Started)];
      var rows' := started[u := JobRows.Finish(started[u], started[u].retry, AllDone(rows, started[u].dependsOn), outcome)];
      RunResult(rows, u, outcome, conflicts) ==
        if JobRows.Performed(started[u].retry, started[u].maxRetries, outcome).1.Finished? && conflicts <= MAX_TRIES
        then EnqueueWaiting(rows', u) else rows'
  {
    hide AllDone, EnqueueWaiting;
    var parentsDone := AllDone(rows, rows[u].dependsOn);
    var row := JobRows.Finish(rows[u].(state := Started), rows[u].retry, parentsDone, outcome);
    FinishedIsDone(JobRows.Performed(rows[u].retry, rows[u].maxRetries, outcome).1, parentsDone);
    assert rows[u := rows[u].(state := Started)][u := row] == rows[u := row];
  }

  // ---------- Requests as steps of the protocol ----------

  // The request holds the job object of a worker of the protocol, loaded from an earlier table.
  ghost predicate Carries(job: Job, worker: Worker, rows: Rows)
    reads job, job.dependsOn
  {
    && worker.Performing? && worker.uuid == job.uuid && worker.retry == job.retry && job.uuid in rows
    && SameLinks(job.AsRow(), rows[job.uuid]) && job.maxRetries == rows[job.uuid].maxRetries
    && Loaded(job, rows, worker.parentsDone)
  }

  // Whatever others do meanwhile, the request still holds the object.
  lemma StillCarries(job: Job, worker: Worker, s: State, e: Step, s': State)
    requires Next(s, e, s') && Carries(job, worker, s.rows)
    ensures Carries(job, worker, s'.rows)
  {
    RowsStep(s, e, s', job.uuid);
    forall u | u in s.rows ensures u in s'.rows {
      RowsStep(s, e, s', u);
    }
  }

  // The first transaction of a request is the step in which a worker starts the job.
  method ClaimStep(table: JobTable, uuid: Uuid, ghost s: State, ghost w: nat) returns (job: Job)
    requires s.rows == table.rows && Linked(table.rows) && Can(s, Step.Claim(uuid, w))
    modifies table`rows
    ensures fresh(job) && fresh(job.dependsOn)
    ensures table.rows == Do(s, Step.Claim(uuid, w)).rows
    ensures Carries(job, Do(s, Step.Claim(uuid, w)).workers[w], table.rows)
  {
    job := Claim(table, uuid);
  }

  // The second one is the step in which the worker performs the job, on whatever has become of
  // the table since.
  method PerformStep(table: JobTable, job: Job, outcome: Outcome, now: Time, seconds: Option<Seconds>,
                     pattern: map<nat, Seconds>, ghost s: State, ghost w: nat) returns (verdict: Verdict)
    requires s.rows == table.rows && Can(s, Step.Perform(w, outcome)) && Carries(job, s.workers[w], table.rows)
    modifies table`rows, job
    ensures table.rows == Do(s, Step.Perform(w, outcome)).rows
    ensures var workers := Do(s, Step.Perform(w, outcome)).workers;
      if verdict.Finished? then w in workers && workers[w] == Enabling(job.uuid, 0) else w !in workers
    ensures verdict.Postponed? ==> Delayed(job.eta, job.retry, now, seconds, pattern)
  {
    ghost var row, stored := job.AsRow(), table.rows[job.uuid];
    verdict := PerformJob(table, job, outcome, s.workers[w].parentsDone, now, seconds, pattern);
    FinishedIsDone(verdict, s.workers[w].parentsDone);
    assert JobRows.Finish(row, row.retry, s.workers[w].parentsDone, outcome)
      == JobRows.Finish(stored, row.retry, s.workers[w].parentsDone, outcome);
  }

  // The steps of the protocol that a request takes.
  function RequestSteps(rows: Rows, u: Uuid, w: nat, outcome: Outcome, conflicts: nat): seq<Step> {
    if u in rows && rows[u].state.Enqueued? then
      [Step.Claim(u, w), Step.Perform(w, outcome)] +
      if JobRows.Performed(rows[u].retry, rows[u].maxRetries, outcome).1.Finished? then EnablingSteps(w, conflicts) else []
    else []
  }

  function EnablingSteps(w: nat, conflicts: nat): seq<Step> {
    if conflicts <= MAX_TRIES then seq(conflicts, _ => Conflict(w)) + [Enable(w)] else seq(MAX_TRIES + 1, _ => Conflict(w))
  }

  lemma {:induction false} ConflictsDo(s: State, w: nat, u: Uuid, tries: nat, n: nat)
    requires w in s.workers && s.workers[w] == Enabling(u, tries) && tries + n <= MAX_TRIES
    ensures CanAll(s, seq(n, _ => Conflict(w)))
    ensures DoAll(s, seq(n, _ => Conflict(w))) == s.(workers := s.workers[w := Enabling(u, tries + n)])
    decreases n
  {
    var es := seq(n, _ => Conflict(w));
    if n == 0 {
      assert s.workers[w := Enabling(u, tries)] == s.workers;
    } else {
      var s' := Do(s, Conflict(w));
      ConflictsDo(s', w, u, tries + 1, n - 1);
      assert es[1..] == seq(n - 1, _ => Conflict(w));
      assert s'.workers[w := Enabling(u, tries + n)] == s.workers[w := Enabling(u, tries + n)];
    }
  }

  lemma Append(s: State, es: seq<Step>, e: Step)
    requires CanAll(s, es) && Can(DoAll(s, es), e)
    ensures CanAll(s, es + [e]) && DoAll(s, es + [e]) == Do(DoAll(s, es), e)
  {
    OneStep(DoAll(s, es), e);
    StepsAppend(s, es, [e]);
  }

  lemma EnablingStepsDo(s: State, w: nat, u: Uuid, conflicts: nat)
    requires w in s.workers && s.workers[w] == Enabling(u, 0)
    ensures CanAll(s, EnablingSteps(w, conflicts))
    ensures DoAll(s, EnablingSteps(w, conflicts)).rows == if conflicts <= MAX_TRIES then EnqueueWaiting(s.rows, u) else s.rows
  {
    if conflicts <= MAX_TRIES {
      ConflictsDo(s, w, u, 0, conflicts);
      Append(s, seq(conflicts, _ => Conflict(w)), Enable(w));
    } else {
      ConflictsDo(s, w, u, 0, MAX_TRIES);
      Append(s, seq(MAX_TRIES, _ => Conflict(w)), Conflict(w));
      assert seq(MAX_TRIES, _ => Conflict(w)) + [Conflict(w)] == seq(MAX_TRIES + 1, _ => Conflict(w));
    }
  }

  // A request that nobody disturbs is a run of the protocol.
  lemma RequestIsProtocol(s: State, u: Uuid, w: nat, outcome: Outcome, conflicts: nat)
    requires w !in s.workers
    ensures CanAll(s, RequestSteps(s.rows, u, w, outcome, conflicts))
    ensures DoAll(s, RequestSteps(s.rows, u, w, outcome, conflicts)).rows == RunResult(s.rows, u, outcome, conflicts)
  {
    if u in s.rows && s.rows[u].state.Enqueued? {
      var s1 := Do(s, Step.Claim(u, w));
      var s2 := Do(s1, Step.Perform(w, outcome));
      var row := s2.rows[u];
      assert s2.rows == s.rows[u := row];
      var es := RequestSteps(s.rows, u, w, outcome, conflicts);
      assert es[1..][0] == Step.Perform(w, outcome);
      if row.state.Done? {
        EnablingStepsDo(s2, w, u, conflicts);
        assert es[1..][1..] == EnablingSteps(w, conflicts);
      } else {
        assert es[1..][1..] == [];
        assert DoAll(s2, []) == s2 && DoAll(s1, es[1..]) == s2;
        assert row == JobRows.Finish(s.rows[u].(state := Started), s.rows[u].retry, AllDone(s.rows, s.rows[u].dependsOn), outcome);
      }
    }
  }

  // ---------- Users ----------

  datatype Action = ToDone | ToPending | ToCancelled

  function Act(rows: Rows, u: Uuid, action: Action): Rows
    requires u in rows
  {
    match action
    case ToDone => MarkDone(rows, u)
    case ToPending => Requeue(rows, u)
    case ToCancelled => Cancel(rows, u)
  }

  function ActStep(u: Uuid, action: Action): Step {
    match action
    case ToDone => UserDone(u)
    case ToPending => UserRequeue(u)
    case ToCancelled => UserCancel(u)
  }

  // The action on one job after the other.
  function ActAll(rows: Rows, us: seq<Uuid>, action: Action): (rows': Rows)
    requires forall u :: u in us ==> u in rows
    ensures rows'.Keys == rows.Keys
  {
    if us == [] then rows
    else
      var before := ActAll(rows, us[..|us| - 1], action);
      assert us[|us| - 1] in us;
      Act(before, us[|us| - 1], action)
  }

  function ActSteps(us: seq<Uuid>, action: Action): seq<Step> {
    seq(|us|, i requires 0 <= i < |us| => ActStep(us[i], action))
  }

  lemma ActStepsMore(us: seq<Uuid>, action: Action)
    requires us != []
    ensures ActSteps(us, action) == ActSteps(us[..|us| - 1], action) + [ActStep(us[|us| - 1], action)]
  {
  }

  lemma ActStepDoes(s: State, u: Uuid, action: Action)
    requires u in s.rows
    ensures Can(s, ActStep(u, action)) && Do(s, ActStep(u, action)).rows == Act(s.rows, u, action)
  {
  }

  // Actions of users are runs of the protocol.
  lemma {:induction false} ActAllIsProtocol(s: State, us: seq<Uuid>, action: Action)
    requires forall u :: u in us ==> u in s.rows
    ensures CanAll(s, ActSteps(us, action)) && DoAll(s, ActSteps(us, action)).rows == ActAll(s.rows, us, action)
  {
    hide Can, Do, Act, ActStep;
    if us != [] {
      var n := |us| - 1;
      ActAllIsProtocol(s, us[..n], action);
      ActStepsMore(us, action);
      assert us[n] in us;
      ActStepDoes(DoAll(s, ActSteps(us[..n], action)), us[n], action);
      Append(s, ActSteps(us[..n], action), ActStep(us[n], action));
    }
  }

  lemma ActLinked(rows: Rows, u: Uuid, action: Action)
    requires Linked(rows) && u in rows
    ensures Linked(Act(rows, u, action))
  {
    assert LinkedAt(rows, u);
    forall c | c in rows ensures SameLinks(rows[c], Act(rows, u, action)[c]) {
      assert LinkedAt(rows, c);
    }
    RelabelLinked(rows, Act(rows, u, action));
  }

  // Changes one stored job as a user asks for.
  method ChangeJob(table: JobTable, uuid: Uuid, action: Action)
    requires Linked(table.rows) && uuid in table.rows && (action.ToPending? ==> !table.rows[uuid].state.WaitDependencies?)
    modifies table`rows
    ensures table.rows == Act(old(table.rows), uuid, action)
  {
    ghost var rows := table.rows;
    RelatedAreStored(rows, uuid);
    var job := table.Load(uuid);
    match action
    case ToDone =>
      job.SetDone();
      job.Store(table);
      assert table.rows == rows[uuid := rows[uuid].(state := Done)];
      table.rows := EnqueueWaiting(table.rows, uuid);
    case ToPending =>
      job.SetPending(table, true);
      StoreLoaded(table, job, AllDone(rows, rows[uuid].dependsOn));
    case ToCancelled =>
      job.SetCancelled();
      job.Store(table);
  }

  // Jobs that wait for others are not requeued.
  method ChangeJobs(table: JobTable, uuids: seq<Uuid>, action: Action)
    requires Linked(table.rows) && forall u :: u in uuids ==> u in table.rows
    modifies table`rows
    ensures table.rows == ActAll(old(table.rows), uuids, action) && Linked(table.rows)
  {
    for i := 0 to |uuids|
      invariant table.rows == ActAll(old(table.rows), uuids[..i], action) && Linked(table.rows)
    {
      var u := uuids[i];
      assert u in uuids;
      ActLinked(table.rows, u, action);
      assert uuids[..i + 1][..i] == uuids[..i];
      if !action.ToPending? || !table.rows[u].state.WaitDependencies? {
        ChangeJob(table, u, action);
      }
    }
    assert uuids[..|uuids|] == uuids;
  }
}
