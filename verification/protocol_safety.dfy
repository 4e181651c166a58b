// Safety of the protocol between runner, workers and users, over all interleavings: the capacity
// of the root channel bounds what is enqueued or started.
module ProtocolSafety {
  import opened ChannelJobs
  import opened ChannelTree
  import opened ChannelTurn
  import opened JobRows
  import opened Scheduler
  import opened SchedulerEffects
  import opened RunnerProtocol

  ghost predicate ActiveIn(rows: Rows, u: Uuid) {
    u in rows && Active(rows[u].state)
  }

  ghost function ActiveJobs(rows: Rows): set<Uuid> {
    set u | u in rows && Active(rows[u].state)
  }

  // ---------- The invariant ----------

  // The scheduler counts all jobs that are enqueued or started in the table as running.
  ghost predicate Covered(s: State) {
    && SchedOk(s.sched) && Root in s.sched.tree
    && (forall u :: ActiveIn(s.rows, u) ==> u in Running(s.sched))
  }

  // So it does the jobs it has yielded, which are neither enqueued nor started yet.
  ghost predicate OutboxOk(s: State)
    requires Root in s.sched.tree
  {
    && (forall u :: u in s.outbox ==> u in Running(s.sched) && !ActiveIn(s.rows, u))
    && (forall i, k :: 0 <= i < k < |s.outbox| ==> s.outbox[i] != s.outbox[k])
    && (s.outbox != [] ==> s.fetched.Idle?)
  }

  // A row that was read as enqueued or started is counted as running, and one that was not has
  // not become so since.
  ghost predicate FetchedOk(s: State)
    requires Root in s.sched.tree
  {
    s.fetched.Data? ==>
      if Active(s.fetched.state) then s.fetched.uuid in Running(s.sched) else !ActiveIn(s.rows, s.fetched.uuid)
  }

  ghost predicate WithinCapacity(s: State)
    requires Root in s.sched.tree
  {
    s.sched.tree[Root].capacity > 0 ==> |Running(s.sched)| <= s.sched.tree[Root].capacity
  }

  ghost predicate Safe(s: State) {
    TableOk(s) && Covered(s) && OutboxOk(s) && FetchedOk(s) && WithinCapacity(s)
  }

  // ---------- One step ----------

  // Only a dispatch makes a job active that was not.
  lemma ActiveStep(s: State, e: Step, s': State, u: Uuid)
    requires Next(s, e, s') && ActiveIn(s'.rows, u)
    ensures ActiveIn(s.rows, u) || (e.Dispatch? && u == s.outbox[0])
  {
  }

  lemma RunnerIdle(s: State, e: Step, s': State)
    requires Next(s, e, s')
    ensures !e.Apply? && !e.RunJobs? && !e.Collect? && !e.AddChannel? ==> s'.sched == s.sched
    ensures !e.Dispatch? && !e.StopDispatch? && !e.RunJobs? ==> s'.outbox == s.outbox
    ensures !e.Fetch? && !e.Apply? ==> s'.fetched == s.fetched
    ensures e.StopDispatch? ==> s'.outbox == []
  {
  }

  // How a step changes the set of jobs that count as running.
  ghost predicate RunningStep(s: State, e: Step, s': State)
    requires Can(s, e) && Root in s.sched.tree && Root in s'.sched.tree
  {
    var R, R' := Running(s.sched), Running(s'.sched);
    if e.Apply? then
      && R - {e.job.uuid} <= R' <= R + {e.job.uuid}
      && (if Active(s.fetched.state) then R <= R' else R' <= R)
    else if e.RunJobs? then
      && (forall u :: u in R' <==> u in R || u in s'.outbox) && (forall u :: u in s'.outbox ==> u !in R)
      && (forall i, k :: 0 <= i < k < |s'.outbox| ==> s'.outbox[i] != s'.outbox[k])
    else R' == R
  }

  lemma SchedulerStep(s: State, e: Step, s': State)
    requires Next(s, e, s') && SchedOk(s.sched) && Root in s.sched.tree
    ensures SchedOk(s'.sched) && Root in s'.sched.tree && RunningStep(s, e, s')
    ensures s'.sched.tree[Root].capacity == s.sched.tree[Root].capacity
  {
    RunnerIdle(s, e, s');
    hide SchedOk, Running, Turn;
    match e
    case Apply(job, eta) => NotifyRunning(s.sched, job, eta, s.fetched.state);
    case Collect(byUuid) => DropRunning(s.sched, s'.sched);
    case AddChannel(n, capacity) => AddChannelRunning(s.sched, n, capacity);
    case RunJobs(now, t', jobs) => TurnRunning(s.sched, now, t', jobs); TurnAtRoot(s.sched, now, t', jobs);
    case _ =>
  }

  lemma CoveredStep(s: State, e: Step, s': State)
    requires Next(s, e, s') && Safe(s)
    ensures Covered(s')
  {
    SchedulerStep(s, e, s');
    hide SchedOk, Running, TableOk, Next;
    forall u | ActiveIn(s'.rows, u) ensures u in Running(s'.sched) {
      ActiveStep(s, e, s', u);
      ApplyRows(s, e, s');
    }
  }

  lemma ApplyRows(s: State, e: Step, s': State)
    requires Next(s, e, s')
    ensures e.Apply? ==> s'.rows == s.rows && s.fetched.Data? && e.job.uuid == s.fetched.uuid
    ensures e.RunJobs? ==> s'.rows == s.rows && RunnerFree(s)
    ensures e.Dispatch? ==> s.outbox != []
    ensures e.Dispatch? ==> s'.outbox == s.outbox[1..]
    ensures e.Fetch? ==> s'.rows == s.rows && e.uuid in s.rows && s'.fetched == Data(e.uuid, s.rows[e.uuid].state) && RunnerFree(s)
    ensures e.Apply? ==> s'.fetched.Idle?
  {
  }

  lemma OutboxStep(s: State, e: Step, s': State)
    requires Next(s, e, s') && Safe(s)
    ensures Root in s'.sched.tree && OutboxOk(s')
  {
    SchedulerStep(s, e, s');
    RunnerIdle(s, e, s');
    ApplyRows(s, e, s');
    hide SchedOk, Running, TableOk, Next;
    forall u | u in s'.outbox ensures u in Running(s'.sched) && !ActiveIn(s'.rows, u) {
      if ActiveIn(s'.rows, u) { ActiveStep(s, e, s', u); }
    }
  }

  lemma FetchedStep(s: State, e: Step, s': State)
    requires Next(s, e, s') && Safe(s)
    ensures Root in s'.sched.tree && FetchedOk(s')
  {
    SchedulerStep(s, e, s');
    RunnerIdle(s, e, s');
    ApplyRows(s, e, s');
    hide SchedOk, Running, TableOk, Next;
    if s'.fetched.Data? && ActiveIn(s'.rows, s'.fetched.uuid) {
      ActiveStep(s, e, s', s'.fetched.uuid);
    }
  }

  lemma CapacityStep(s: State, e: Step, s': State)
    requires Next(s, e, s') && Safe(s)
    ensures Root in s'.sched.tree && WithinCapacity(s')
  {
    SchedulerStep(s, e, s');
    ApplyRows(s, e, s');
    hide SchedOk, Running, TableOk, Turn;
    if s.sched.tree[Root].capacity > 0 {
      if e.RunJobs? {
        TurnBound(s.sched, e.now, e.tree, e.jobs);
      } else {
        assert Running(s'.sched) <= Running(s.sched);
        SubsetSize(Running(s'.sched), Running(s.sched));
      }
    }
  }

  lemma {:induction false} SubsetSize(a: set<Uuid>, b: set<Uuid>)
    requires a <= b
    ensures |a| <= |b|
  {
    assert b == a + (b - a);
  }

  // Every step of the runner, a worker, a timeout or a user keeps the invariant.
  lemma SafeStep(s: State, e: Step, s': State)
    requires Next(s, e, s') && Safe(s)
    ensures Safe(s')
  {
    TableStep(s, e, s');
    CoveredStep(s, e, s');
    OutboxStep(s, e, s');
    FetchedStep(s, e, s');
    CapacityStep(s, e, s');
  }

  // ---------- Runs: the capacity ----------

  lemma InitialSafe(s: State)
    requires Initial(s)
    ensures Safe(s)
  {
    forall u ensures u !in Running(s.sched) {
      if u in Running(s.sched) { RunningHeld(s.sched, u); }
    }
    assert Running(s.sched) == {};
  }

  lemma {:induction false} SafeAlong(ss: seq<State>, es: seq<Step>, i: nat)
    requires IsRun(ss, es) && Safe(ss[0]) && i < |ss|
    ensures Safe(ss[i]) && ss[i].sched.tree[Root].capacity == ss[0].sched.tree[Root].capacity
  {
    if i > 0 {
      SafeAlong(ss, es, i - 1);
      hide Safe, Next;
      SafeStep(ss[i - 1], es[i - 1], ss[i]);
      assert SchedOk(ss[i - 1].sched) && Root in ss[i - 1].sched.tree by { SafeParts(ss[i - 1]); }
      SchedulerStep(ss[i - 1], es[i - 1], ss[i]);
    }
  }

  lemma SafeParts(s: State)
    requires Safe(s)
    ensures SchedOk(s.sched) && Root in s.sched.tree && ActiveJobs(s.rows) <= Running(s.sched) && WithinCapacity(s)
  {
    forall u | u in ActiveJobs(s.rows) ensures u in Running(s.sched) {
      assert ActiveIn(s.rows, u);
    }
  }

  // At every moment the jobs that are enqueued or started in the table are among those the root
  // channel counts as running, and there are not more of them than its capacity.
  lemma CapacityHolds(ss: seq<State>, es: seq<Step>, i: nat)
    requires IsRun(ss, es) && Safe(ss[0]) && i < |ss|
    ensures Root in ss[0].sched.tree && Root in ss[i].sched.tree
    ensures ActiveJobs(ss[i].rows) <= Running(ss[i].sched)
    ensures var capacity := ss[0].sched.tree[Root].capacity;
      capacity > 0 ==> |ActiveJobs(ss[i].rows)| <= capacity
  {
    SafeAlong(ss, es, i);
    SafeParts(ss[i]);
    SubsetSize(ActiveJobs(ss[i].rows), Running(ss[i].sched));
  }

  // A job in the queue of any channel is neither enqueued nor started in the table.
  lemma QueuedNotActive(ss: seq<State>, es: seq<Step>, i: nat, m: ChannelPath, job: ChannelJob)
    requires IsRun(ss, es) && Safe(ss[0]) && i < |ss|
    requires m in ss[i].sched.tree && job in Queued(ss[i].sched.tree[m])
    ensures !ActiveIn(ss[i].rows, job.uuid)
  {
    SafeAlong(ss, es, i);
    SafeParts(ss[i]);
    if ActiveIn(ss[i].rows, job.uuid) {
      assert job.uuid in ActiveJobs(ss[i].rows);
      RunningNotQueued(ss[i].sched, job.uuid, m, job);
    }
  }
}
