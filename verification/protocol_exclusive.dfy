// No job is performed by two workers at once, unless a user requeues it while it is performed; and
// each start uses up one dispatch.
module ProtocolExclusive {
  import opened ChannelJobs
  import opened ChannelTurn
  import opened JobStates
  import opened JobRows
  import opened Scheduler
  import opened SchedulerEffects
  import opened RunnerProtocol
  import opened ProtocolSafety

  ghost predicate PerformedBy(s: State, w: nat, u: Uuid) {
    w in s.workers && s.workers[w].Performing? && s.workers[w].uuid == u
  }

  ghost predicate InProgress(s: State, u: Uuid) {
    exists w :: PerformedBy(s, w, u)
  }

  // The runner is about to take the job out of all queues.
  ghost predicate Withdrawn(s: State, u: Uuid) {
    s.fetched == Data(u, Done) || s.fetched == Data(u, JobState.Failed)
  }

  // The runner may dispatch the job by what it remembers, whatever the row of the job says.
  ghost predicate Recalled(s: State, u: Uuid) {
    (Queues(s.sched, u) && !Withdrawn(s, u)) || u in s.outbox || s.fetched == Data(u, JobState.Pending)
  }

  // A job in one of these states is still to be started.
  predicate ToStart(state: JobState) {
    state.WaitDependencies? || state.Pending? || state.Enqueued?
  }

  // Neither the table nor the runner leads to a start of the job.
  ghost predicate Quiet(s: State, u: Uuid) {
    u in s.rows && !ToStart(s.rows[u].state) && !Recalled(s, u)
  }

  // At most one worker performs the job, and then nothing leads to another start.
  ghost predicate Alone(s: State, u: Uuid) {
    && (forall v, w :: PerformedBy(s, v, u) && PerformedBy(s, w, u) ==> v == w)
    && (InProgress(s, u) ==> Quiet(s, u))
  }

  // A user requeues the job while it is performed.
  ghost predicate RequeuesRunning(s: State, e: Step, u: Uuid) {
    e == UserRequeue(u) && InProgress(s, u)
  }

  // ---------- One step ----------

  // A worker performs a job only after it has claimed it, which needs an enqueued job.
  lemma PerformedStep(s: State, e: Step, s': State, w: nat, u: Uuid)
    requires Next(s, e, s') && PerformedBy(s', w, u)
    ensures PerformedBy(s, w, u) || (e == Claim(u, w) && u in s.rows && s.rows[u].state.Enqueued?)
  {
  }

  lemma PerformEnds(s: State, e: Step, s': State)
    requires Next(s, e, s') && e.Perform?
    ensures PerformedBy(s, e.worker, s.workers[e.worker].uuid) && forall u :: !PerformedBy(s', e.worker, u)
  {
  }

  // Only a notification that a job is pending puts it into a queue, and only what was in a queue
  // is yielded.
  lemma QueuesStep(s: State, e: Step, s': State, u: Uuid)
    requires Next(s, e, s') && SchedOk(s.sched) && Root in s.sched.tree
    requires Queues(s'.sched, u) || u in s'.outbox
    ensures Queues(s.sched, u) || u in s.outbox || (e.Apply? && s.fetched == Data(u, JobState.Pending))
  {
    hide Queues, SchedOk, Turn, Notify;
    match e
    case Apply(job, eta) => if Queues(s'.sched, u) { NotifyQueues(s.sched, job, eta, s.fetched.state, u); }
    case AddChannel(n, capacity) => if Queues(s'.sched, u) { AddChannelQueues(s.sched, n, capacity, u); }
    case RunJobs(now, t', jobs) => TurnQueues(s.sched, now, t', jobs, u);
    case Collect(byUuid) => if Queues(s'.sched, u) { CollectQueues(s.sched, byUuid, u); }
    case _ =>
  }

  lemma CollectQueues(s: Sched, byUuid: map<Uuid, ChannelJob>, u: Uuid)
    requires Queues(s.(byUuid := byUuid), u)
    ensures Queues(s, u)
  {
    var m, j := QueuedJob(s.(byUuid := byUuid), u);
    QueuedFrom(s, m, j);
  }

  lemma WithdrawnStep(s: State, e: Step, s': State, u: Uuid)
    requires Next(s, e, s') && SchedOk(s.sched) && Withdrawn(s, u)
    ensures u in s'.outbox ==> u in s.outbox
    ensures Withdrawn(s', u) || !Queues(s'.sched, u)
  {
    if e.Apply? { NotifyUnqueues(s.sched, e.job, e.eta, s.fetched.state); }
  }

  lemma RecalledStep(s: State, e: Step, s': State, u: Uuid)
    requires Next(s, e, s') && SchedOk(s.sched) && Root in s.sched.tree && Recalled(s', u)
    ensures Recalled(s, u) || (e == Fetch(u) && u in s.rows && s.rows[u].state.Pending?)
  {
    if Withdrawn(s, u) { WithdrawnStep(s, e, s', u); }
    if Queues(s'.sched, u) || u in s'.outbox { QueuesStep(s, e, s', u); }
  }

  // How a job can come to be started again.
  lemma ToStartStep(s: State, e: Step, s': State, u: Uuid)
    requires Next(s, e, s') && u in s.rows && !ToStart(s.rows[u].state)
    ensures u in s'.rows
    ensures ToStart(s'.rows[u].state) ==>
      e == UserRequeue(u) || (e.Dispatch? && s.outbox != [] && s.outbox[0] == u) || (e.Perform? && PerformedBy(s, e.worker, u))
  {
  }

  lemma QuietStep(s: State, e: Step, s': State, u: Uuid)
    requires Next(s, e, s') && SchedOk(s.sched) && Root in s.sched.tree && Quiet(s, u)
    requires e != UserRequeue(u) && !(e.Perform? && PerformedBy(s, e.worker, u))
    ensures Quiet(s', u)
  {
    hide Next, SchedOk, Queues, PerformedBy;
    ToStartStep(s, e, s', u);
    if Recalled(s', u) { RecalledStep(s, e, s', u); }
  }

  // What is started leads to no other start: it was enqueued, so that the scheduler counts it as
  // running and has neither queued nor yielded it.
  lemma ActiveNotRecalled(s: State, u: Uuid)
    requires Safe(s) && ActiveIn(s.rows, u)
    ensures !Recalled(s, u)
  {
    SafeParts(s);
    assert u in ActiveJobs(s.rows);
    if Queues(s.sched, u) {
      var m, j := QueuedJob(s.sched, u);
      RunningNotQueued(s.sched, u, m, j);
    }
  }

  lemma ClaimedIsQuiet(s: State, e: Step, s': State, u: Uuid)
    requires Next(s, e, s') && Safe(s) && e.Claim? && e.uuid == u
    ensures Quiet(s', u) && !Quiet(s, u)
  {
    hide *;
    ClaimedRow(s, e, s', u);
    ActiveNotRecalled(s, u);
    QuietFrom(s, s', u);
  }

  lemma QuietFrom(s: State, s': State, u: Uuid)
    requires u in s.rows && s.rows[u].state.Enqueued? && u in s'.rows && s'.rows[u].state.Started? && !Recalled(s, u)
    requires s'.sched == s.sched && s'.outbox == s.outbox && s'.fetched == s.fetched
    ensures Quiet(s', u) && !Quiet(s, u)
  {
    hide Queues;
  }

  lemma ClaimedRow(s: State, e: Step, s': State, u: Uuid)
    requires Next(s, e, s') && e.Claim? && e.uuid == u
    ensures u in s.rows && s.rows[u].state.Enqueued? && ActiveIn(s.rows, u) && u in s'.rows && s'.rows[u].state.Started?
    ensures s'.sched == s.sched && s'.outbox == s.outbox && s'.fetched == s.fetched
  {
  }

  lemma AloneStep(s: State, e: Step, s': State, u: Uuid)
    requires Next(s, e, s') && Safe(s) && Alone(s, u) && !RequeuesRunning(s, e, u)
    ensures Alone(s', u)
  {
    SafeParts(s);
    if e.Claim? && e.uuid == u { ClaimedIsQuiet(s, e, s', u); }
    if e.Perform? { PerformEnds(s, e, s'); }
    hide Next, Safe, SchedOk, Quiet, PerformedBy;
    forall v, w | PerformedBy(s', v, u) && PerformedBy(s', w, u) ensures v == w && Quiet(s', u) {
      PerformedStep(s, e, s', v, u);
      PerformedStep(s, e, s', w, u);
      if PerformedBy(s, v, u) {
        QuietStep(s, e, s', u);
      }
    }
  }

  // ---------- Runs ----------

  lemma {:induction false} AloneAlong(ss: seq<State>, es: seq<Step>, i: nat, u: Uuid)
    requires IsRun(ss, es) && Safe(ss[0]) && Alone(ss[0], u) && i < |ss|
    requires forall k :: 0 <= k < i ==> !RequeuesRunning(ss[k], es[k], u)
    ensures Safe(ss[i]) && Alone(ss[i], u)
  {
    hide Safe, Alone, Next, RequeuesRunning;
    SafeAlong(ss, es, i);
    if i > 0 {
      AloneAlong(ss, es, i - 1, u);
      AloneStep(ss[i - 1], es[i - 1], ss[i], u);
    }
  }

  // No two workers perform the same job at the same time, also when requests arrive late and
  // race with the reset of timed-out jobs, and when users cancel it or set it to done: only
  // requeueing the job while it is performed can lead to that.
  lemma NeverPerformedTwice(ss: seq<State>, es: seq<Step>, i: nat, v: nat, w: nat, u: Uuid)
    requires IsRun(ss, es) && Initial(ss[0]) && i < |ss|
    requires forall k :: 0 <= k < i ==> !RequeuesRunning(ss[k], es[k], u)
    requires PerformedBy(ss[i], v, u) && PerformedBy(ss[i], w, u)
    ensures v == w
  {
    InitialSafe(ss[0]);
    AloneAlong(ss, es, i, u);
  }

  // ---------- Starts and dispatches ----------

  ghost predicate EnqueuedIn(rows: Rows, u: Uuid) {
    u in rows && rows[u].state.Enqueued?
  }

  ghost predicate Dispatches(s: State, e: Step, u: Uuid) {
    e.Dispatch? && s.outbox != [] && s.outbox[0] == u
  }

  function One(b: bool): nat {
    if b then 1 else 0
  }

  ghost function StartCount(es: seq<Step>, n: nat, u: Uuid): nat
    requires n <= |es|
  {
    if n == 0 then 0 else StartCount(es, n - 1, u) + One(es[n - 1].Claim? && es[n - 1].uuid == u)
  }

  ghost function DispatchCount(ss: seq<State>, es: seq<Step>, n: nat, u: Uuid): nat
    requires n <= |es| <= |ss|
  {
    if n == 0 then 0 else DispatchCount(ss, es, n - 1, u) + One(Dispatches(ss[n - 1], es[n - 1], u))
  }

  lemma EnqueuedStep(s: State, e: Step, s': State, u: Uuid)
    requires Next(s, e, s')
    ensures EnqueuedIn(s'.rows, u) ==> EnqueuedIn(s.rows, u) || Dispatches(s, e, u)
    ensures e.Claim? && e.uuid == u ==> EnqueuedIn(s.rows, u) && !EnqueuedIn(s'.rows, u)
  {
  }

  // Each start uses up an enqueued state that a dispatch of the runner has made.
  lemma {:induction false} StartsNeedDispatches(ss: seq<State>, es: seq<Step>, n: nat, u: Uuid)
    requires IsRun(ss, es) && n <= |es|
    ensures StartCount(es, n, u) + One(EnqueuedIn(ss[n].rows, u)) <= DispatchCount(ss, es, n, u) + One(EnqueuedIn(ss[0].rows, u))
  {
    hide Next, EnqueuedIn, Dispatches;
    if n > 0 {
      StartsNeedDispatches(ss, es, n - 1, u);
      EnqueuedStep(ss[n - 1], es[n - 1], ss[n], u);
    }
  }
}
