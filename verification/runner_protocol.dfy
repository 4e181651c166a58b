// The runner, the workers, the users and the timeouts of HTTP requests around the table of jobs,
// as a state machine. Each transaction is one step, and steps of all parties interleave freely.
module RunnerProtocol {
  import opened ChannelJobs
  import opened ChannelTree
  import opened ChannelTurn
  import opened JobStates
  import opened JobRows
  import opened Scheduler
  import opened SchedulerEffects

  // The runner reads a row and applies it to the scheduler in two steps; in between the row
  // can change.
  datatype Fetched = Idle | Data(uuid: Uuid, state: JobState)

  // A worker has loaded its job, with the states of the parents, when it claimed it. After a job
  // is done the worker still has to enable the children.
  datatype Worker =
    | Performing(uuid: Uuid, retry: nat, parentsDone: bool)
    | Enabling(uuid: Uuid, tries: nat)

  // `outbox` holds the jobs that the scheduler has yielded and the runner has not yet dispatched.
  // `everDone` is history: the jobs that have been done at some time.
  datatype State = State(
    rows: Rows, sched: Sched, fetched: Fetched, outbox: seq<Uuid>,
    workers: map<nat, Worker>, everDone: set<Uuid>)

  const MAX_TRIES := 5

  datatype Step =
    // A graph of new jobs is stored.
    | Create(batch: Rows)
    // The runner: it reads a row, notifies the scheduler, forgets what no channel holds, creates
    // a channel, asks for jobs, dispatches the next one, or stops dispatching.
    | Fetch(uuid: Uuid)
    | Apply(job: ChannelJob, eta: Time)
    | Collect(byUuid: map<Uuid, ChannelJob>)
    | AddChannel(path: ChannelPath, capacity: int)
    | RunJobs(now: Time, tree: Tree, jobs: seq<ChannelJob>)
    | Dispatch
    | StopDispatch
    // A request has timed out or failed.
    | Reset(uuid: Uuid)
    // A worker: it starts an enqueued job, performs it, and enables the children, which other
    // transactions can make fail.
    | Claim(uuid: Uuid, worker: nat)
    | Perform(worker: nat, outcome: Outcome)
    | Enable(worker: nat)
    | Conflict(worker: nat)
    // A user.
    | UserRequeue(uuid: Uuid)
    | UserDone(uuid: Uuid)
    | UserCancel(uuid: Uuid)

  // New jobs wait if they depend on others and are pending if they do not.
  ghost predicate NewBatch(batch: Rows) {
    Linked(batch) && forall u :: u in batch ==> batch[u].state == PendingState(batch[u].dependsOn == {}) && batch[u].retry == 0
  }

  // The runner is one thread: it does one thing at a time.
  ghost predicate RunnerFree(s: State) {
    s.fetched.Idle? && s.outbox == []
  }

  ghost predicate Can(s: State, e: Step) {
    match e
    case Create(batch) => batch.Keys !! s.rows.Keys && NewBatch(batch)
    case Fetch(u) => RunnerFree(s) && u in s.rows
    case Apply(job, eta) => s.fetched.Data? && job.uuid == s.fetched.uuid && job.channel in s.sched.tree && Closed(s.sched.tree)
    case Collect(byUuid) => Dropped(s.sched, s.sched.(byUuid := byUuid))
    case AddChannel(n, capacity) => n.Sub? && n.parent in s.sched.tree && n !in s.sched.tree
    case RunJobs(now, t', jobs) => RunnerFree(s) && Root in s.sched.tree && Turn(s.sched.tree, Root, now, t', jobs)
    case Dispatch => s.outbox != []
    case StopDispatch => true
    case Reset(u) => true
    case Claim(u, w) => u in s.rows && s.rows[u].state.Enqueued? && w !in s.workers
    case Perform(w, outcome) => w in s.workers && s.workers[w].Performing? && s.workers[w].uuid in s.rows
    case Enable(w) => w in s.workers && s.workers[w].Enabling?
    case Conflict(w) => w in s.workers && s.workers[w].Enabling?
    case UserRequeue(u) => u in s.rows
    case UserDone(u) => u in s.rows
    case UserCancel(u) => u in s.rows
  }

  ghost function Claimed(s: State, u: Uuid, w: nat): State
    requires u in s.rows
  {
    s.(rows := s.rows[u := s.rows[u].(state := Started)],
       workers := s.workers[w := Performing(u, s.rows[u].retry, AllDone(s.rows, s.rows[u].dependsOn))])
  }

  ghost function AfterPerform(s: State, w: nat, outcome: Outcome): State
    requires w in s.workers && s.workers[w].Performing? && s.workers[w].uuid in s.rows
  {
    var u := s.workers[w].uuid;
    var row := JobRows.Finish(s.rows[u], s.workers[w].retry, s.workers[w].parentsDone, outcome);
    if row.state.Done? then
      s.(rows := s.rows[u := row], workers := s.workers[w := Enabling(u, 0)], everDone := s.everDone + {u})
    else
      s.(rows := s.rows[u := row], workers := s.workers - {w})
  }

  // What a step does.
  ghost function Do(s: State, e: Step): State
    requires Can(s, e)
  {
    match e
    case Create(batch) => s.(rows := s.rows + batch)
    case Fetch(u) => s.(fetched := Data(u, s.rows[u].state))
    case Apply(job, eta) => s.(fetched := Idle, sched := Notify(s.sched, job, eta, s.fetched.state))
    case Collect(byUuid) => s.(sched := s.sched.(byUuid := byUuid))
    case AddChannel(n, capacity) => s.(sched := s.sched.(tree := s.sched.tree[n := EmptyChan(capacity)]))
    case RunJobs(now, t', jobs) => s.(sched := s.sched.(tree := t'), outbox := Uuids(jobs))
    case Dispatch => s.(rows := SetEnqueued(s.rows, s.outbox[0]), outbox := s.outbox[1..])
    case StopDispatch => s.(outbox := [])
    case Reset(u) => s.(rows := ResetEnqueued(s.rows, u))
    case Claim(u, w) => Claimed(s, u, w)
    case Perform(w, outcome) => AfterPerform(s, w, outcome)
    case Enable(w) => s.(rows := EnqueueWaiting(s.rows, s.workers[w].uuid), workers := s.workers - {w})
    case Conflict(w) =>
      var Enabling(u, tries) := s.workers[w];
      s.(workers := if tries >= MAX_TRIES then s.workers - {w} else s.workers[w := Enabling(u, tries + 1)])
    case UserRequeue(u) => s.(rows := Requeue(s.rows, u))
    case UserDone(u) => s.(rows := MarkDone(s.rows, u), everDone := s.everDone + {u})
    case UserCancel(u) => s.(rows := Cancel(s.rows, u))
  }

  ghost predicate Next(s: State, e: Step, s': State) {
    Can(s, e) && s' == Do(s, e)
  }

  // Nothing is stored yet and the scheduler holds nothing.
  ghost predicate Initial(s: State) {
    && s.rows == map[] && s.fetched.Idle? && s.outbox == [] && s.workers == map[] && s.everDone == {}
    && SchedOk(s.sched) && (forall u :: !Holds(s.sched, u)) && Root in s.sched.tree
  }

  ghost predicate IsRun(ss: seq<State>, es: seq<Step>) {
    |ss| == |es| + 1 && forall i :: 0 <= i < |es| ==> Next(ss[i], es[i], ss[i + 1])
  }

  // ---------- Runs by their steps ----------

  ghost predicate CanAll(s: State, es: seq<Step>)
    decreases |es|
  {
    es == [] || (Can(s, es[0]) && CanAll(Do(s, es[0]), es[1..]))
  }

  ghost function DoAll(s: State, es: seq<Step>): State
    requires CanAll(s, es)
    decreases |es|
  {
    if es == [] then s else DoAll(Do(s, es[0]), es[1..])
  }

  // The states that the steps lead through.
  ghost function States(s: State, es: seq<Step>): (ss: seq<State>)
    requires CanAll(s, es)
    ensures |ss| == |es| + 1 && ss[0] == s && ss[|es|] == DoAll(s, es)
    decreases |es|
  {
    if es == [] then [s] else [s] + States(Do(s, es[0]), es[1..])
  }

  lemma {:induction false} StatesAreRun(s: State, es: seq<Step>)
    requires CanAll(s, es)
    ensures IsRun(States(s, es), es)
    decreases |es|
  {
    if es != [] {
      hide Can, Do;
      StatesAreRun(Do(s, es[0]), es[1..]);
      forall i | 0 <= i < |es| ensures Next(States(s, es)[i], es[i], States(s, es)[i + 1]) {
        if i > 0 { assert Next(States(Do(s, es[0]), es[1..])[i - 1], es[1..][i - 1], States(Do(s, es[0]), es[1..])[i]); }
      }
    }
  }

  lemma {:induction false} StepsAppend(s: State, es: seq<Step>, fs: seq<Step>)
    requires CanAll(s, es) && CanAll(DoAll(s, es), fs)
    ensures CanAll(s, es + fs) && DoAll(s, es + fs) == DoAll(DoAll(s, es), fs)
    decreases |es|
  {
    hide Can, Do;
    if es == [] {
      assert es + fs == fs;
    } else {
      StepsAppend(Do(s, es[0]), es[1..], fs);
      assert (es + fs)[1..] == es[1..] + fs;
    }
  }

  lemma OneStep(s: State, e: Step)
    requires Can(s, e)
    ensures CanAll(s, [e]) && DoAll(s, [e]) == Do(s, e)
  {
    assert [e][1..] == [];
  }

  // ---------- The table ----------

  // Rows keep their links, and no step but the first one of a job adds a row.
  lemma RowsStep(s: State, e: Step, s': State, u: Uuid)
    requires Next(s, e, s') && u in s.rows
    ensures u in s'.rows && SameLinks(s.rows[u], s'.rows[u]) && s'.rows[u].maxRetries == s.rows[u].maxRetries
  {
  }

  // The table is linked, and a worker that found a parent not done performs a job with parents.
  ghost predicate TableOk(s: State) {
    Linked(s.rows) && forall w :: w in s.workers ==> WorkerOk(s.rows, s.workers[w])
  }

  ghost predicate WorkerOk(rows: Rows, worker: Worker) {
    worker.uuid in rows && (worker.Performing? && !worker.parentsDone ==> rows[worker.uuid].dependsOn != {})
  }

  lemma WaitFrom(s: State, e: Step, s': State, u: Uuid)
    requires Next(s, e, s') && u in s.rows && u in s'.rows && s'.rows[u].state.WaitDependencies?
    ensures s.rows[u].state.WaitDependencies? || s.rows[u].dependsOn != {} ||
      (e.Perform? && e.worker in s.workers && s.workers[e.worker].Performing? && s.workers[e.worker].uuid == u
        && !s.workers[e.worker].parentsDone)
  {
  }

  lemma WaitStep(s: State, e: Step, s': State, u: Uuid)
    requires Next(s, e, s') && TableOk(s) && u in s.rows && u in s'.rows
    ensures s'.rows[u].state.WaitDependencies? ==> s.rows[u].dependsOn != {}
  {
    assert LinkedAt(s.rows, u);
    if s'.rows[u].state.WaitDependencies? { WaitFrom(s, e, s', u); }
    if e.Perform? && e.worker in s.workers { assert WorkerOk(s.rows, s.workers[e.worker]); }
    hide Next, Linked;
  }

  lemma WorkerFrom(s: State, e: Step, s': State, w: nat)
    requires Next(s, e, s') && w in s'.workers
    ensures (w in s.workers && s'.workers[w].uuid == s.workers[w].uuid && (s'.workers[w].Performing? ==> s'.workers[w] == s.workers[w]))
      || (e.Claim? && e.uuid in s.rows &&
          s'.workers[w] == Performing(e.uuid, s.rows[e.uuid].retry, AllDone(s.rows, s.rows[e.uuid].dependsOn)))
  {
  }

  lemma WorkersStep(s: State, e: Step, s': State, w: nat)
    requires Next(s, e, s') && TableOk(s) && w in s'.workers
    ensures WorkerOk(s'.rows, s'.workers[w])
  {
    WorkerFrom(s, e, s', w);
    hide Next, Linked;
    if w in s.workers { assert WorkerOk(s.rows, s.workers[w]); }
    RowsStep(s, e, s', s'.workers[w].uuid);
  }

  lemma LinksStep(s: State, e: Step, s': State)
    requires Next(s, e, s') && TableOk(s)
    ensures Linked(s'.rows)
  {
    if e.Create? {
      forall u | u in s'.rows ensures LinkedAt(s'.rows, u) {
        if u in e.batch { assert LinkedAt(e.batch, u); } else { assert LinkedAt(s.rows, u); }
      }
    } else {
      forall u | u in s.rows
        ensures u in s'.rows && SameLinks(s.rows[u], s'.rows[u])
        ensures s'.rows[u].state.WaitDependencies? ==> s.rows[u].dependsOn != {}
      {
        RowsStep(s, e, s', u);
        WaitStep(s, e, s', u);
      }
      RowsKeys(s, e, s');
      RelabelLinked(s.rows, s'.rows);
    }
  }

  lemma RowsKeys(s: State, e: Step, s': State)
    requires Next(s, e, s') && !e.Create?
    ensures s'.rows.Keys == s.rows.Keys
  {
  }

  lemma TableStep(s: State, e: Step, s': State)
    requires Next(s, e, s') && TableOk(s)
    ensures TableOk(s')
  {
    LinksStep(s, e, s');
    hide Next, Linked;
    forall w | w in s'.workers {
      WorkersStep(s, e, s', w);
    }
  }
}
