// How a job comes to be started: whatever still leads to a start can be continued to one, on any
// tree of channels and in any state of the table.
module ProtocolRestart {
  import opened ChannelJobs
  import opened ChannelTree
  import opened ChannelOnlyJob
  import opened JobStates
  import opened JobRows
  import opened Scheduler
  import opened SchedulerEffects
  import opened RunnerProtocol
  import opened ProtocolSafety
  import opened ProtocolExclusive
  import opened ProtocolOrder
  import opened ProtocolEnabling

  // A job object as the scheduler makes it from the data of a row.
  ghost predicate MadeFor(s: State, v: Uuid, objects: map<Uuid, ChannelJob>) {
    v in objects && objects[v].uuid == v && objects[v].channel in s.sched.tree
  }

  // There are job objects for job u and for the job that the runner has just read.
  ghost predicate Describe(s: State, u: Uuid, objects: map<Uuid, ChannelJob>) {
    MadeFor(s, u, objects) && (s.fetched.Data? ==> MadeFor(s, s.fetched.uuid, objects))
  }

  // What the scheduler holds is stored, and no channel has a negative capacity.
  ghost predicate Working(s: State) {
    && SchedOk(s.sched) && Root in s.sched.tree && Capable(s.sched.tree)
    && (forall v :: Holds(s.sched, v) ==> v in s.rows)
  }

  // Steps of the runner, and of users who set other jobs to done.
  ghost predicate Plain(es: seq<Step>, u: Uuid) {
    forall i :: 0 <= i < |es| ==> PlainStep(es[i], u)
  }

  predicate PlainStep(e: Step, u: Uuid) {
    e.Fetch? || e.Apply? || e.RunJobs? || e.Dispatch? || e.StopDispatch? || (e.UserDone? && e.uuid != u)
  }

  // Such steps lead from the one state to the other.
  ghost predicate Leads(s: State, es: seq<Step>, u: Uuid, s': State) {
    Plain(es, u) && CanAll(s, es) && DoAll(s, es) == s'
  }

  ghost predicate StartedBy(s: State, es: seq<Step>, w: nat, u: Uuid) {
    Plain(es, u) && CanAll(s, es) && Can(DoAll(s, es), Claim(u, w))
  }

  lemma Nothing(s: State, u: Uuid)
    ensures Leads(s, [], u, s)
  {
  }

  lemma LeadsOne(s: State, e: Step, u: Uuid)
    requires Can(s, e) && PlainStep(e, u)
    ensures Leads(s, [e], u, Do(s, e))
  {
    OneStep(s, e);
  }

  lemma LeadsOn(s: State, es: seq<Step>, s1: State, fs: seq<Step>, s2: State, u: Uuid)
    requires Leads(s, es, u, s1) && Leads(s1, fs, u, s2)
    ensures Leads(s, es + fs, u, s2)
  {
    StepsAppend(s, es, fs);
  }

  lemma StartedAfter(s: State, es: seq<Step>, s1: State, fs: seq<Step>, w: nat, u: Uuid)
    requires Leads(s, es, u, s1) && StartedBy(s1, fs, w, u)
    ensures StartedBy(s, es + fs, w, u)
  {
    StepsAppend(s, es, fs);
  }

  // ---------- From dispatches ----------

  lemma {:induction false} FreshWorker(workers: set<nat>) returns (w: nat)
    ensures forall v :: v in workers ==> v < w
  {
    w := 0;
    if workers != {} {
      var v: nat :| v in workers;
      var w' := FreshWorker(workers - {v});
      w := if v < w' then w' else v + 1;
      forall k | k in workers ensures k < w {
        assert k == v || k in workers - {v};
      }
    }
  }

  lemma StartEnqueued(s: State, u: Uuid) returns (es: seq<Step>, w: nat)
    requires EnqueuedIn(s.rows, u)
    ensures StartedBy(s, es, w, u)
  {
    w := FreshWorker(s.workers.Keys);
    es := [];
  }

  lemma {:induction false} StartDispatched(s: State, u: Uuid) returns (es: seq<Step>, w: nat)
    requires u in s.outbox && u in s.rows
    ensures StartedBy(s, es, w, u)
    decreases |s.outbox|
  {
    LeadsOne(s, Dispatch, u);
    var s1 := Do(s, Dispatch);
    if s.outbox[0] == u {
      es, w := StartEnqueued(s1, u);
    } else {
      es, w := StartDispatched(s1, u);
    }
    StartedAfter(s, [Dispatch], s1, es, w, u);
    es := [Dispatch] + es;
  }

  // ---------- From the queues ----------

  // The runner is free, and job j waits in the queue of channel q.
  ghost predicate WaitsIn(s: State, j: ChannelJob, q: ChannelPath) {
    Working(s) && RunnerFree(s) && j.uuid in s.rows && q in s.sched.tree && j in Queued(s.sched.tree[q])
  }

  lemma NotifyDone(s: Sched, v: Uuid)
    requires SchedOk(s) && v in s.byUuid
    ensures Closed(s.tree) && s.byUuid[v].channel in s.tree && s.byUuid[v].uuid == v
    ensures var s' := Notify(s, s.byUuid[v], 0.0, Done);
      && SchedOk(s') && s'.byUuid == s.byUuid && s'.tree.Keys == s.tree.Keys && HeldNowhere(s'.tree, v)
      && (forall m :: m in s.tree ==> s'.tree[m] == Without(s.tree[m], s.byUuid[v]))
  {
    var job := s.byUuid[v];
    NotifyOk(s, job, 0.0, Done);
    RemoveSound(s.tree, job);
    var s' := Notify(s, job, 0.0, Done);
    assert s'.byUuid == s.byUuid;
    forall m | m in s'.tree ensures HoldsNone(s'.tree[m], v) {
      assert RegisteredIn(s', s'.tree[m]);
    }
  }

  // A user sets another job to done, and the runner notifies the scheduler of it.
  ghost function Removed(s: State, v: Uuid): State
    requires v in s.rows && v in s.sched.byUuid && Closed(s.sched.tree) && s.sched.byUuid[v].channel in s.sched.tree
  {
    s.(rows := MarkDone(s.rows, v), everDone := s.everDone + {v},
       sched := Notify(s.sched, s.sched.byUuid[v], 0.0, Done))
  }

  lemma SetDone(s: State, v: Uuid)
    requires v in s.rows
    ensures Can(s, UserDone(v))
    ensures Do(s, UserDone(v)) == s.(rows := MarkDone(s.rows, v), everDone := s.everDone + {v})
    ensures MarkDone(s.rows, v).Keys == s.rows.Keys && MarkDone(s.rows, v)[v].state.Done?
  {
  }

  lemma Fetches(s: State, v: Uuid)
    requires RunnerFree(s) && v in s.rows
    ensures Can(s, Fetch(v)) && Do(s, Fetch(v)) == s.(fetched := Data(v, s.rows[v].state))
  {
  }

  lemma Applies(s: State, job: ChannelJob)
    requires s.fetched.Data? && job.uuid == s.fetched.uuid && job.channel in s.sched.tree && Closed(s.sched.tree)
    ensures Can(s, Apply(job, 0.0))
    ensures Do(s, Apply(job, 0.0)) == s.(fetched := Idle, sched := Notify(s.sched, job, 0.0, s.fetched.state))
  {
  }

  lemma RemovalLeads(s: State, v: Uuid, u: Uuid) returns (es: seq<Step>)
    requires SchedOk(s.sched) && RunnerFree(s) && v in s.rows && v in s.sched.byUuid && v != u
    ensures Closed(s.sched.tree) && s.sched.byUuid[v].channel in s.sched.tree && Leads(s, es, u, Removed(s, v))
  {
    hide SchedOk, Notify, Closed, Leads, Do, Can, MarkDone;
    NotifyDone(s.sched, v);
    var e1, e2, e3 := UserDone(v), Fetch(v), Apply(s.sched.byUuid[v], 0.0);
    SetDone(s, v);
    var s1 := Do(s, e1);
    Fetches(s1, v);
    var s2 := Do(s1, e2);
    Applies(s2, s.sched.byUuid[v]);
    LeadsOne(s, e1, u);
    LeadsOne(s1, e2, u);
    LeadsOne(s2, e3, u);
    LeadsOn(s, [e1], s1, [e2], s2, u);
    LeadsOn(s, [e1] + [e2], s2, [e3], Do(s2, e3), u);
    es := [e1] + [e2] + [e3];
  }

  lemma RemovedParts(s: State, v: Uuid)
    requires SchedOk(s.sched) && v in s.rows && v in s.sched.byUuid
    ensures Closed(s.sched.tree) && s.sched.byUuid[v].channel in s.sched.tree && s.sched.byUuid[v].uuid == v
    ensures var s' := Removed(s, v);
      && s'.rows.Keys == s.rows.Keys && s'.fetched == s.fetched && s'.outbox == s.outbox
      && SchedOk(s'.sched) && s'.sched.byUuid == s.sched.byUuid && s'.sched.tree.Keys == s.sched.tree.Keys
      && HeldNowhere(s'.sched.tree, v)
      && (forall m :: m in s.sched.tree ==> s'.sched.tree[m] == Without(s.sched.tree[m], s.sched.byUuid[v]))
  {
    hide SchedOk, Notify, Closed, HeldNowhere, MarkDone;
    NotifyDone(s.sched, v);
    SetDone(s, v);
  }

  lemma RemovalKeeps(s: State, v: Uuid, j: ChannelJob, q: ChannelPath)
    requires WaitsIn(s, j, q) && v in s.rows && v in s.sched.byUuid && v != j.uuid
    ensures Closed(s.sched.tree) && s.sched.byUuid[v].channel in s.sched.tree
    ensures var s' := Removed(s, v);
      && WaitsIn(s', j, q) && s'.rows.Keys == s.rows.Keys && s'.sched.byUuid == s.sched.byUuid
      && s'.sched.tree.Keys == s.sched.tree.Keys && HeldNowhere(s'.sched.tree, v)
      && (forall m :: m in s.sched.tree ==> Held(s'.sched.tree[m]) <= Held(s.sched.tree[m]))
  {
    hide *;
    WaitsInParts(s, j, q);
    RemovedParts(s, v);
    RemovedLess(s, v, j, q);
    RunnerStays(s, Removed(s, v));
    StillWorking(s, Removed(s, v));
    WaitsInIs(Removed(s, v), j, q);
  }

  lemma RunnerStays(s: State, s': State)
    requires RunnerFree(s) && s'.fetched == s.fetched && s'.outbox == s.outbox
    ensures RunnerFree(s')
  {
  }

  lemma RemovedLess(s: State, v: Uuid, j: ChannelJob, q: ChannelPath)
    requires WaitsIn(s, j, q) && v in s.rows && v in s.sched.byUuid && v != j.uuid
    ensures Closed(s.sched.tree) && s.sched.byUuid[v].channel in s.sched.tree
    ensures var t, t' := s.sched.tree, Removed(s, v).sched.tree;
      && t'.Keys == t.Keys && j in Queued(t'[q])
      && (forall m :: m in t ==> Held(t'[m]) <= Held(t[m]) && t'[m].capacity == t[m].capacity)
  {
    RemovedParts(s, v);
    hide SchedOk, Closed, HeldNowhere, Removed, Without, Held, Queued, Holds;
    var t, t' := s.sched.tree, Removed(s, v).sched.tree;
    forall m | m in t ensures Held(t'[m]) <= Held(t[m]) && t'[m].capacity == t[m].capacity {
      WithoutLess(t[m], s.sched.byUuid[v], j);
    }
    WithoutLess(t[q], s.sched.byUuid[v], j);
  }

  // What works keeps working if nothing more is held.
  lemma StillWorking(s: State, s': State)
    requires Working(s) && SchedOk(s'.sched) && s'.rows.Keys == s.rows.Keys && s'.sched.tree.Keys == s.sched.tree.Keys
    requires forall m :: m in s.sched.tree ==>
      Held(s'.sched.tree[m]) <= Held(s.sched.tree[m]) && s'.sched.tree[m].capacity == s.sched.tree[m].capacity
    ensures Working(s')
  {
    hide SchedOk, Held, Holds;
    forall u | Holds(s'.sched, u) ensures u in s'.rows {
      StillHeld(s.sched, s'.sched, u);
    }
  }

  lemma WithoutLess(ch: Chan, job: ChannelJob, j: ChannelJob)
    ensures Held(Without(ch, job)) <= Held(ch) && Without(ch, job).capacity == ch.capacity
    ensures j != job && j in Queued(ch) ==> j in Queued(Without(ch, job))
  {
  }

  lemma StillHeld(s: Sched, s': Sched, u: Uuid)
    requires Holds(s', u) && s'.tree.Keys == s.tree.Keys
    requires forall m :: m in s.tree ==> Held(s'.tree[m]) <= Held(s.tree[m])
    ensures Holds(s, u)
  {
    var m, i := HeldJob(s', u);
    assert !HoldsNone(s.tree[m], u);
  }

  lemma NowhereStill(t: Tree, t': Tree, u: Uuid)
    requires HeldNowhere(t, u) && t'.Keys == t.Keys && forall m :: m in t ==> Held(t'[m]) <= Held(t[m])
    ensures HeldNowhere(t', u)
  {
    forall m | m in t' ensures HoldsNone(t'[m], u) {
      assert HoldsNone(t[m], u);
    }
  }

  lemma {:induction false} RemoveAll(s: State, j: ChannelJob, q: ChannelPath, todo: set<Uuid>)
    returns (es: seq<Step>, s': State)
    requires WaitsIn(s, j, q) && todo <= s.rows.Keys && todo <= s.sched.byUuid.Keys && j.uuid !in todo
    ensures Leads(s, es, j.uuid, s') && WaitsIn(s', j, q)
    ensures s'.rows.Keys == s.rows.Keys && s'.sched.byUuid == s.sched.byUuid && s'.sched.tree.Keys == s.sched.tree.Keys
    ensures forall m :: m in s.sched.tree ==> Held(s'.sched.tree[m]) <= Held(s.sched.tree[m])
    ensures forall v :: v in todo ==> HeldNowhere(s'.sched.tree, v)
    decreases |todo|
  {
    hide WaitsIn, Leads, Held, HeldNowhere, Removed, Closed;
    if todo == {} {
      es, s' := [], s;
      Nothing(s, j.uuid);
    } else {
      var v :| v in todo;
      WaitsInParts(s, j, q);
      var first := RemovalLeads(s, v, j.uuid);
      RemovalKeeps(s, v, j, q);
      var s1 := Removed(s, v);
      assert |todo - {v}| < |todo|;
      var rest;
      rest, s' := RemoveAll(s1, j, q, todo - {v});
      es := first + rest;
      LeadsOn(s, first, s1, rest, s', j.uuid);
      NowhereStill(s1.sched.tree, s'.sched.tree, v);
    }
  }

  lemma WaitsInParts(s: State, j: ChannelJob, q: ChannelPath)
    requires WaitsIn(s, j, q)
    ensures Working(s) && SchedOk(s.sched) && RunnerFree(s) && j.uuid in s.rows && q in s.sched.tree && j in Queued(s.sched.tree[q])
  {
  }

  lemma WaitsInIs(s: State, j: ChannelJob, q: ChannelPath)
    requires Working(s) && RunnerFree(s) && j.uuid in s.rows && q in s.sched.tree && j in Queued(s.sched.tree[q])
    ensures WaitsIn(s, j, q)
  {
  }

  // When all other jobs are gone, the scheduler yields the job.
  lemma AllOthersGone(s: State, j: ChannelJob, q: ChannelPath, todo: set<Uuid>)
    requires WaitsIn(s, j, q) && todo == (set v | v in s.sched.byUuid && v in s.rows && v != j.uuid)
    requires forall v :: v in todo ==> HeldNowhere(s.sched.tree, v)
    ensures OnlyJob(s.sched.tree, j)
  {
    forall m, i | m in s.sched.tree && i in Held(s.sched.tree[m]) ensures i == j {
      assert RegisteredIn(s.sched, s.sched.tree[m]) && RegisteredIn(s.sched, s.sched.tree[q]);
      assert !HoldsNone(s.sched.tree[m], i.uuid);
      assert Holds(s.sched, i.uuid);
    }
  }

  lemma StartOnly(s: State, j: ChannelJob, q: ChannelPath) returns (es: seq<Step>, w: nat)
    requires WaitsIn(s, j, q) && OnlyJob(s.sched.tree, j)
    ensures StartedBy(s, es, w, j.uuid)
  {
    var t := s.sched.tree;
    var now := SomeTime(t, t.Keys);
    OnlyTurn(t, j, q, now);
    var run := RunJobs(now, AllMoved(t, j, now), [j]);
    LeadsOne(s, run, j.uuid);
    var s1 := Do(s, run);
    assert Uuids([j])[0] == j.uuid;
    es, w := StartDispatched(s1, j.uuid);
    StartedAfter(s, [run], s1, es, w, j.uuid);
    es := [run] + es;
  }

  lemma StartQueued(s: State, u: Uuid) returns (es: seq<Step>, w: nat)
    requires Working(s) && RunnerFree(s) && u in s.rows && Queues(s.sched, u)
    ensures StartedBy(s, es, w, u)
  {
    hide *;
    var q, j := QueuedJob(s.sched, u);
    WaitsInIs(s, j, q);
    var todo := set v | v in s.sched.byUuid && v in s.rows && v != j.uuid;
    var removal, s1 := RemoveAll(s, j, q, todo);
    AllOthersGone(s1, j, q, todo);
    es, w := StartOnly(s1, j, q);
    StartedAfter(s, removal, s1, es, w, u);
    es := removal + es;
  }

  // ---------- From a row that the runner has read ----------

  // The object of a job that the scheduler knows, or the one made for it.
  ghost function Known(s: Sched, v: Uuid, job: ChannelJob): ChannelJob {
    if v in s.byUuid then s.byUuid[v] else job
  }

  lemma KnownIs(s: Sched, v: Uuid, job: ChannelJob)
    requires SchedOk(s) && Root in s.tree && job.uuid == v && job.channel in s.tree
    ensures Closed(s.tree) && Known(s, v, job).uuid == v && Known(s, v, job).channel in s.tree
    ensures Register(s, Known(s, v, job)).tree == s.tree
  {
    RegistryOf(s);
  }

  lemma TransitionCapacity(t: Tree, job: ChannelJob, eta: Time, state: JobState, m: ChannelPath)
    requires Sound(t) && Closed(t) && job.channel in t && m in t
    ensures m in Transition(t, job, eta, state) && Transition(t, job, eta, state)[m].capacity == t[m].capacity
  {
    if Active(state) { SetRunningSound(t, job); }
  }

  lemma OthersStayQueued(t: Tree, job: ChannelJob, eta: Time, state: JobState, m: ChannelPath, j: ChannelJob)
    requires Sound(t) && Closed(t) && job.channel in t && m in t && j != job && j in Queued(t[m])
    ensures m in Transition(t, job, eta, state) && j in Queued(Transition(t, job, eta, state)[m])
  {
    if Active(state) { SetRunningSound(t, job); }
  }

  lemma ApplyWorks(s: State, job: ChannelJob)
    requires Working(s) && s.fetched.Data? && job.uuid == s.fetched.uuid && s.fetched.uuid in s.rows
    requires job.channel in s.sched.tree && Register(s.sched, job).tree == s.sched.tree
    ensures Closed(s.sched.tree) && Working(Do(s, Apply(job, 0.0)))
    ensures Do(s, Apply(job, 0.0)).sched.tree.Keys == s.sched.tree.Keys
  {
    var state := s.fetched.state;
    NotifyOk(s.sched, job, 0.0, state);
    ForgetClosed(s.sched, job);
    NotifyIs(s.sched, job, 0.0, state);
    var s' := s.(fetched := Idle, sched := Notify(s.sched, job, 0.0, state));
    assert s' == Do(s, Apply(job, 0.0));
    RootIn(s.sched);
    forall m | m in s.sched.tree ensures s'.sched.tree[m].capacity >= 0 {
      TransitionCapacity(s.sched.tree, job, 0.0, state, m);
    }
    hide SchedOk, Holds, Notify, Register, Transition;
    forall v | Holds(s'.sched, v) ensures v in s'.rows {
      NotifyHolds(s.sched, job, 0.0, state, v);
    }
  }

  // What the scheduler has queued when the row was applied.
  lemma ApplyQueues(s: Sched, job: ChannelJob, state: JobState, u: Uuid)
    requires SchedOk(s) && Closed(s.tree) && job.channel in s.tree && Register(s, job).tree == s.tree
    requires if u == job.uuid then state.Pending? || (Queues(s, u) && (state.WaitDependencies? || state.Cancelled?)) else Queues(s, u)
    ensures Queues(Notify(s, job, 0.0, state), u)
  {
    var s' := Notify(s, job, 0.0, state);
    ForgetClosed(s, job);
    NotifyIs(s, job, 0.0, state);
    RootIn(s);
    if u == job.uuid && state.Pending? {
      SetPendingSound(s.tree, job, 0.0);
      QueuedFrom(s', job.channel, job);
    } else {
      var m, j := QueuedJob(s, u);
      if u != job.uuid { OthersStayQueued(s.tree, job, 0.0, state, m, j); }
      QueuedFrom(s', m, j);
    }
  }

  lemma StillDescribes(s: State, u: Uuid, objects: map<Uuid, ChannelJob>, s': State)
    requires Describe(s, u, objects) && s'.sched.tree.Keys == s.sched.tree.Keys
    requires s'.fetched.Data? ==> s'.fetched.uuid == u || s'.fetched == s.fetched
    ensures Describe(s', u, objects)
  {
  }

  // The runner applies what it has read.
  lemma ApplyRead(s: State, u: Uuid, objects: map<Uuid, ChannelJob>) returns (job: ChannelJob)
    requires Working(s) && Describe(s, u, objects) && s.fetched.Data? && s.fetched.uuid in s.rows
    ensures Can(s, Apply(job, 0.0)) && Do(s, Apply(job, 0.0)).fetched.Idle?
    ensures var s' := Do(s, Apply(job, 0.0));
      && Working(s') && Describe(s', u, objects)
      && s'.rows == s.rows && s'.workers == s.workers && s'.outbox == s.outbox
      && (Recalled(s, u) && u !in s.outbox && !(s.fetched.uuid == u && Active(s.fetched.state)) ==> Queues(s'.sched, u))
  {
    hide *;
    WorkingParts(s);
    DescribeParts(s, u, objects);
    var made := objects[s.fetched.uuid];
    job := Known(s.sched, s.fetched.uuid, made);
    KnownIs(s.sched, s.fetched.uuid, made);
    Applies(s, job);
    ApplyWorks(s, job);
    StillDescribes(s, u, objects, Do(s, Apply(job, 0.0)));
    if Recalled(s, u) && u !in s.outbox && !(s.fetched.uuid == u && Active(s.fetched.state)) {
      ApplyRecalled(s, u, job);
    }
  }

  lemma DescribeParts(s: State, u: Uuid, objects: map<Uuid, ChannelJob>)
    requires Describe(s, u, objects) && s.fetched.Data?
    ensures var v := s.fetched.uuid; v in objects && objects[v].uuid == v && objects[v].channel in s.sched.tree
  {
  }

  lemma ApplyRecalled(s: State, u: Uuid, job: ChannelJob)
    requires SchedOk(s.sched) && s.fetched.Data? && job.uuid == s.fetched.uuid && Closed(s.sched.tree)
    requires job.channel in s.sched.tree && Register(s.sched, job).tree == s.sched.tree
    requires Recalled(s, u) && u !in s.outbox && !(s.fetched.uuid == u && Active(s.fetched.state))
    ensures Queues(Notify(s.sched, job, 0.0, s.fetched.state), u)
  {
    hide SchedOk, Queues, Notify, Register, Closed;
    ApplyQueues(s.sched, job, s.fetched.state, u);
  }

  lemma WorkingParts(s: State)
    requires Working(s)
    ensures SchedOk(s.sched) && Root in s.sched.tree && Capable(s.sched.tree)
  {
  }

  // The runner applies what it has read and stops dispatching.
  lemma FreeRunner(s: State, u: Uuid, objects: map<Uuid, ChannelJob>) returns (es: seq<Step>, s': State)
    requires Working(s) && Describe(s, u, objects) && (s.fetched.Data? ==> s.fetched.uuid in s.rows)
    ensures Leads(s, es, u, s') && Working(s') && RunnerFree(s') && s'.rows == s.rows && s'.workers == s.workers
    ensures Describe(s', u, objects)
    ensures Recalled(s, u) && u !in s.outbox && !(s.fetched.Data? && s.fetched.uuid == u && Active(s.fetched.state)) ==>
      Queues(s'.sched, u)
  {
    LeadsOne(s, StopDispatch, u);
    Stops(s, u, objects);
    hide Working, Describe, Do, Can, Leads, Queues, Recalled;
    var s1 := Do(s, StopDispatch);
    if s.fetched.Idle? {
      es, s' := [StopDispatch], s1;
    } else {
      var job := ApplyRead(s1, u, objects);
      LeadsOne(s1, Apply(job, 0.0), u);
      s' := Do(s1, Apply(job, 0.0));
      LeadsOn(s, [StopDispatch], s1, [Apply(job, 0.0)], s', u);
      es := [StopDispatch] + [Apply(job, 0.0)];
    }
  }

  lemma Stops(s: State, u: Uuid, objects: map<Uuid, ChannelJob>)
    requires Working(s) && Describe(s, u, objects)
    ensures var s' := Do(s, StopDispatch);
      && s' == s.(outbox := []) && Working(s') && Describe(s', u, objects)
      && (Recalled(s, u) && u !in s.outbox ==> Recalled(s', u))
      && (Recalled(s, u) && u !in s.outbox && s.fetched.Idle? ==> Queues(s'.sched, u))
  {
    hide Queues, SchedOk, Holds;
  }

  // ---------- From the table ----------

  lemma StartPending(s: State, u: Uuid, objects: map<Uuid, ChannelJob>) returns (es: seq<Step>, w: nat)
    requires Working(s) && RunnerFree(s) && Describe(s, u, objects) && u in s.rows && s.rows[u].state.Pending?
    ensures StartedBy(s, es, w, u)
  {
    Fetches(s, u);
    LeadsOne(s, Fetch(u), u);
    var s1 := Do(s, Fetch(u));
    StillDescribes(s, u, objects, s1);
    var applying, s2 := FreeRunner(s1, u, objects);
    es, w := StartQueued(s2, u);
    StartedAfter(s1, applying, s2, es, w, u);
    StartedAfter(s, [Fetch(u)], s1, applying + es, w, u);
    es := [Fetch(u)] + (applying + es);
  }

  // Only the table changes.
  ghost predicate OnlyTable(s: State, s': State) {
    s'.sched == s.sched && s'.fetched == s.fetched && s'.outbox == s.outbox && s'.workers == s.workers && SameTable(s, s')
  }

  ghost predicate WaitsOrPends(s: State, u: Uuid) {
    u in s.rows && (s.rows[u].state.WaitDependencies? || s.rows[u].state.Pending?)
  }

  lemma MarkedOne(s: State, p: Uuid, u: Uuid)
    requires TableOk(s) && p in s.rows && p != u && WaitsOrPends(s, u)
    ensures Leads(s, [UserDone(p)], u, Do(s, UserDone(p))) && TableOk(Do(s, UserDone(p)))
    ensures OnlyTable(s, Do(s, UserDone(p))) && WaitsOrPends(Do(s, UserDone(p)), u)
    ensures DoneIn(Do(s, UserDone(p)), p) && StaysDone(s, Do(s, UserDone(p)))
  {
    hide *;
    SetDone(s, p);
    LeadsOne(s, UserDone(p), u);
    IsNext(s, UserDone(p));
    TableStep(s, UserDone(p), Do(s, UserDone(p)));
    OtherStaysDone(s, UserDone(p), Do(s, UserDone(p)));
    MarkedRows(s, p, u);
    OnlyRows(s, Do(s, UserDone(p)));
  }

  lemma IsNext(s: State, e: Step)
    requires Can(s, e)
    ensures Next(s, e, Do(s, e))
  {
  }

  lemma OnlyRows(s: State, s': State)
    requires s' == s.(rows := s'.rows, everDone := s'.everDone) && SameTable(s, s')
    ensures OnlyTable(s, s')
  {
  }

  lemma MarkedRows(s: State, p: Uuid, u: Uuid)
    requires p in s.rows && p != u && WaitsOrPends(s, u)
    ensures Can(s, UserDone(p)) && WaitsOrPends(Do(s, UserDone(p)), u)
    ensures Do(s, UserDone(p)) == s.(rows := Do(s, UserDone(p)).rows, everDone := Do(s, UserDone(p)).everDone)
  {
  }

  lemma {:induction false} MarkedAll(s: State, u: Uuid, todo: set<Uuid>) returns (es: seq<Step>, s': State)
    requires TableOk(s) && todo <= s.rows.Keys && u !in todo && WaitsOrPends(s, u)
    ensures Leads(s, es, u, s') && TableOk(s') && OnlyTable(s, s') && WaitsOrPends(s', u) && StaysDone(s, s')
    ensures forall p :: p in todo ==> DoneIn(s', p)
    decreases |todo|
  {
    hide TableOk, Leads, WaitsOrPends, Do, Can, DoneIn;
    if todo == {} {
      es, s' := [], s;
      Nothing(s, u);
    } else {
      var p :| p in todo;
      SetDone(s, p);
      MarkedOne(s, p, u);
      var s1 := Do(s, UserDone(p));
      assert |todo - {p}| < |todo|;
      var rest;
      rest, s' := MarkedAll(s1, u, todo - {p});
      es := [UserDone(p)] + rest;
      LeadsOn(s, [UserDone(p)], s1, rest, s', u);
      KeptOnce(s, s1, s');
    }
  }

  // When all parents are done, one more of them set to done makes the job pending.
  lemma Enabled(s: State, u: Uuid, p: Uuid)
    requires TableOk(s) && WaitsOrPends(s, u) && p in s.rows && p in s.rows[u].dependsOn && p != u
    requires forall q :: q in s.rows[u].dependsOn ==> DoneIn(s, q)
    ensures var s' := Do(s, UserDone(p)); u in s'.rows && s'.rows[u].state.Pending?
  {
    SetDone(s, p);
    var s' := Do(s, UserDone(p));
    hide TableOk, Do, Can, Next, Leads;
    MarkedOne(s, p, u);
    IsNext(s, UserDone(p));
    EnableDone(s, UserDone(p), s', u);
    assert SameLinks(s.rows[u], s'.rows[u]);
    forall q | q in s'.rows[u].dependsOn ensures DoneIn(s', q) {
      assert DoneIn(s, q);
    }
    assert AllDone(s'.rows, s'.rows[u].dependsOn);
  }

  lemma StartWaiting(s: State, u: Uuid, objects: map<Uuid, ChannelJob>) returns (es: seq<Step>, w: nat)
    requires Working(s) && RunnerFree(s) && Describe(s, u, objects) && TableOk(s)
    requires u in s.rows && s.rows[u].state.WaitDependencies? && u !in s.rows[u].dependsOn
    ensures StartedBy(s, es, w, u)
  {
    assert LinkedAt(s.rows, u);
    var p :| p in s.rows[u].dependsOn;
    var marking, s1 := MarkedAll(s, u, s.rows[u].dependsOn);
    var s2 := Do(s1, UserDone(p));
    MarkedOne(s1, p, u);
    Enabled(s1, u, p);
    StillWorks(s, s2);
    StillDescribes(s, u, objects, s2);
    es, w := StartPending(s2, u, objects);
    StartedAfter(s1, [UserDone(p)], s2, es, w, u);
    StartedAfter(s, marking, s1, [UserDone(p)] + es, w, u);
    es := marking + ([UserDone(p)] + es);
  }

  lemma StillWorks(s: State, s': State)
    requires Working(s) && RunnerFree(s) && s'.sched == s.sched && s'.fetched == s.fetched && s'.outbox == s.outbox
    requires s'.rows.Keys == s.rows.Keys
    ensures Working(s') && RunnerFree(s')
  {
  }

  // ---------- Exactly what is not quiet can be started ----------

  // What holds in all states of runs.
  ghost predicate Regular(s: State) {
    Safe(s) && Ordered(s) && (s.fetched.Data? ==> s.fetched.uuid in s.rows)
  }

  lemma FetchedStored(s: State, e: Step, s': State)
    requires Next(s, e, s') && (s.fetched.Data? ==> s.fetched.uuid in s.rows) && s'.fetched.Data?
    ensures s'.fetched.uuid in s'.rows
  {
  }

  lemma {:induction false} RegularAlong(ss: seq<State>, es: seq<Step>, i: nat)
    requires IsRun(ss, es) && Initial(ss[0]) && i < |ss|
    ensures Regular(ss[i])
  {
    OrderedAlong(ss, es, i);
    if i > 0 {
      RegularAlong(ss, es, i - 1);
      if ss[i].fetched.Data? { FetchedStored(ss[i - 1], es[i - 1], ss[i]); }
    }
  }

  // The job does not depend on itself, and the channels can start jobs.
  ghost predicate Able(s: State, u: Uuid) {
    u in s.rows && u !in s.rows[u].dependsOn && Capable(s.sched.tree)
  }

  lemma RegularWorks(s: State)
    requires Regular(s) && Capable(s.sched.tree)
    ensures Working(s) && TableOk(s) && SchedOk(s.sched) && Root in s.sched.tree
    ensures s.fetched.Data? ==> s.fetched.uuid in s.rows
  {
    SafeParts(s);
    assert forall u :: Cleared(s, u) ==> u in s.rows;
  }

  // A job that was read as enqueued or started is counted as running, so that no queue has it.
  lemma ActiveNotQueued(s: State, u: Uuid)
    requires Safe(s) && s.fetched.Data? && s.fetched.uuid == u && Active(s.fetched.state)
    ensures !Queues(s.sched, u)
  {
    SafeParts(s);
    if Queues(s.sched, u) {
      var m, j := QueuedJob(s.sched, u);
      RunningNotQueued(s.sched, u, m, j);
    }
  }

  lemma StartWhatIsNotQuiet(s: State, u: Uuid, objects: map<Uuid, ChannelJob>) returns (es: seq<Step>, w: nat)
    requires Regular(s) && Describe(s, u, objects) && Able(s, u) && !Quiet(s, u)
    ensures StartedBy(s, es, w, u)
  {
    RegularWorks(s);
    if EnqueuedIn(s.rows, u) {
      es, w := StartEnqueued(s, u);
    } else if u in s.outbox {
      es, w := StartDispatched(s, u);
    } else {
      if s.fetched.Data? && s.fetched.uuid == u && Active(s.fetched.state) { ActiveNotQueued(s, u); }
      hide Regular, Queues, Working, Leads, StartedBy, Describe, TableOk;
      var freeing, s1 := FreeRunner(s, u, objects);
      SameTableOk(s, s1);
      if Queues(s1.sched, u) {
        es, w := StartQueued(s1, u);
      } else if s.rows[u].state.Pending? {
        es, w := StartPending(s1, u, objects);
      } else {
        es, w := StartWaiting(s1, u, objects);
      }
      StartedAfter(s, freeing, s1, es, w, u);
      es := freeing + es;
    }
  }

  lemma SameTableOk(s: State, s': State)
    requires TableOk(s) && s'.rows == s.rows && s'.workers == s.workers
    ensures TableOk(s')
  {
  }

  lemma StartedIsRun(s: State, es: seq<Step>, w: nat, u: Uuid)
    requires StartedBy(s, es, w, u)
    ensures CanAll(s, es + [Claim(u, w)]) && DoAll(s, es + [Claim(u, w)]) == Do(DoAll(s, es), Claim(u, w))
    ensures PerformedBy(DoAll(s, es + [Claim(u, w)]), w, u)
  {
    OneStep(DoAll(s, es), Claim(u, w));
    StepsAppend(s, es, [Claim(u, w)]);
  }

  // ---------- Jobs that were cancelled or set to done ----------

  ghost predicate NoRequeue(es: seq<Step>, u: Uuid) {
    forall i :: 0 <= i < |es| ==> es[i] != UserRequeue(u)
  }

  lemma {:induction false} QuietAlong(ss: seq<State>, es: seq<Step>, k: nat, i: nat, u: Uuid)
    requires IsRun(ss, es) && Safe(ss[0]) && k <= i < |ss| && Quiet(ss[k], u) && !InProgress(ss[k], u)
    requires forall n :: k <= n < i ==> es[n] != UserRequeue(u)
    ensures Quiet(ss[i], u) && !InProgress(ss[i], u)
    decreases i - k
  {
    if k < i {
      QuietAlong(ss, es, k, i - 1, u);
      var s, e, s' := ss[i - 1], es[i - 1], ss[i];
      SafeAlong(ss, es, i - 1);
      SafeParts(s);
      hide Next, SchedOk, Safe, PerformedBy;
      NotPerformed(s, e, u);
      QuietStep(s, e, s', u);
      forall w ensures !PerformedBy(s', w, u) {
        if PerformedBy(s', w, u) { PerformedStep(s, e, s', w, u); }
      }
    }
  }

  lemma NotPerformed(s: State, e: Step, u: Uuid)
    requires !InProgress(s, u)
    ensures !(e.Perform? && PerformedBy(s, e.worker, u))
  {
  }

  // A job that was cancelled, done or has failed and is not performed is performed nevertheless,
  // without being requeued, exactly if the runner still recalls it.
  lemma PerformedNevertheless(s: State, u: Uuid, objects: map<Uuid, ChannelJob>)
    requires Regular(s) && Describe(s, u, objects) && Able(s, u)
    requires !ToStart(s.rows[u].state) && !InProgress(s, u)
    ensures Recalled(s, u) <==> exists es :: CanAll(s, es) && NoRequeue(es, u) && InProgress(DoAll(s, es), u)
  {
    hide Safe, Ordered, CanAll, DoAll, Describe, Recalled, Plain, PerformedBy;
    assert Quiet(s, u) <==> !Recalled(s, u);
    if Recalled(s, u) {
      var es, w := StartWhatIsNotQuiet(s, u, objects);
      StartedIsRun(s, es, w, u);
      PlainIsNoRequeue(es, u);
      assert NoRequeue(es + [Claim(u, w)], u);
    } else {
      forall es | CanAll(s, es) && NoRequeue(es, u) ensures !InProgress(DoAll(s, es), u) {
        StatesAreRun(s, es);
        QuietAlong(States(s, es), es, 0, |es|, u);
      }
    }
  }

  lemma PlainIsNoRequeue(es: seq<Step>, u: Uuid)
    requires Plain(es, u)
    ensures NoRequeue(es, u)
  {
    forall i | 0 <= i < |es| ensures es[i] != UserRequeue(u) {
      assert PlainStep(es[i], u);
    }
  }

  // ---------- Jobs that are performed ----------

  ghost predicate OneWorker(s: State, u: Uuid) {
    forall v, w :: PerformedBy(s, v, u) && PerformedBy(s, w, u) ==> v == w
  }

  // Users do not requeue the job while it is performed.
  ghost predicate NotRequeuedRunning(s: State, es: seq<Step>, u: Uuid)
    requires CanAll(s, es)
  {
    forall k :: 0 <= k < |es| ==> !RequeuesRunning(States(s, es)[k], es[k], u)
  }

  lemma {:induction false} PlainKeepsWorkers(s: State, es: seq<Step>, u: Uuid)
    requires CanAll(s, es) && Plain(es, u)
    ensures DoAll(s, es).workers == s.workers
    decreases |es|
  {
    if es != [] {
      assert PlainStep(es[0], u);
      forall i | 0 <= i < |es[1..]| ensures PlainStep(es[1..][i], u) {
        assert PlainStep(es[i + 1], u);
      }
      PlainKeepsWorkers(Do(s, es[0]), es[1..], u);
    }
  }

  lemma ClaimAdds(s: State, u: Uuid, v: nat, w: nat)
    requires PerformedBy(s, v, u) && Can(s, Claim(u, w))
    ensures PerformedBy(Do(s, Claim(u, w)), v, u) && PerformedBy(Do(s, Claim(u, w)), w, u) && v != w
  {
  }

  lemma SecondWorker(s: State, u: Uuid, es: seq<Step>, w: nat)
    requires StartedBy(s, es, w, u) && InProgress(s, u)
    ensures CanAll(s, es + [Claim(u, w)]) && !OneWorker(DoAll(s, es + [Claim(u, w)]), u)
    ensures NotRequeuedRunning(s, es + [Claim(u, w)], u)
  {
    hide Do, Can;
    StartedIsRun(s, es, w, u);
    PlainKeepsWorkers(s, es, u);
    PlainIsNoRequeue(es, u);
    var v :| PerformedBy(s, v, u);
    assert PerformedBy(DoAll(s, es), v, u);
    ClaimAdds(DoAll(s, es), u, v, w);
    hide PerformedBy, DoAll, CanAll;
  }

  // A job that a worker performs is performed by a second one, unless it is requeued meanwhile,
  // exactly if the table or the runner still leads to a start.
  lemma SecondWorkerExactly(s: State, u: Uuid, objects: map<Uuid, ChannelJob>)
    requires Regular(s) && Describe(s, u, objects) && Able(s, u) && OneWorker(s, u) && InProgress(s, u)
    ensures Quiet(s, u) <==> forall es :: CanAll(s, es) && NotRequeuedRunning(s, es, u) ==> OneWorker(DoAll(s, es), u)
  {
    hide Safe, Ordered, Quiet, OneWorker, CanAll, Able, Describe, StartedBy, InProgress;
    if Quiet(s, u) {
      forall es | CanAll(s, es) && NotRequeuedRunning(s, es, u) ensures OneWorker(DoAll(s, es), u) {
        StatesAreRun(s, es);
        AloneFrom(s, u);
        AloneAlong(States(s, es), es, |es|, u);
        AloneFrom(DoAll(s, es), u);
      }
    } else {
      var es, w := StartWhatIsNotQuiet(s, u, objects);
      SecondWorker(s, u, es, w);
    }
  }

  lemma AloneFrom(s: State, u: Uuid)
    ensures Alone(s, u) <==> OneWorker(s, u) && (InProgress(s, u) ==> Quiet(s, u))
  {
  }

  lemma RegularStep(s: State, e: Step, s': State)
    requires Next(s, e, s') && Regular(s)
    ensures Regular(s')
  {
    SafeStep(s, e, s');
    OrderedStep(s, e, s');
    if s'.fetched.Data? { FetchedStored(s, e, s'); }
  }

  lemma RequeuedStep(s: State, u: Uuid)
    requires Able(s, u) && Alone(s, u) && InProgress(s, u)
    ensures Can(s, UserRequeue(u))
    ensures var s' := Do(s, UserRequeue(u));
      Able(s', u) && InProgress(s', u) && !Quiet(s', u) && s'.sched == s.sched && s'.fetched == s.fetched
  {
    var w :| PerformedBy(s, w, u);
    assert PerformedBy(Do(s, UserRequeue(u)), w, u);
  }

  // Requeueing a job while it is performed always makes it possible that a second worker performs
  // it at the same time.
  lemma RequeueLetsSecondStart(s: State, u: Uuid, objects: map<Uuid, ChannelJob>) returns (es: seq<Step>)
    requires Regular(s) && Describe(s, u, objects) && Able(s, u) && Alone(s, u) && InProgress(s, u)
    ensures Can(s, UserRequeue(u)) && CanAll(Do(s, UserRequeue(u)), es) && NoRequeue(es, u)
    ensures !OneWorker(DoAll(Do(s, UserRequeue(u)), es), u)
  {
    RequeuedStep(s, u);
    var s' := Do(s, UserRequeue(u));
    RegularStep(s, UserRequeue(u), s');
    StillDescribes(s, u, objects, s');
    hide Regular, Able, Quiet, OneWorker, InProgress, CanAll, DoAll, NotRequeuedRunning, Can, Do, Describe, NoRequeue;
    var plain, w := StartWhatIsNotQuiet(s', u, objects);
    SecondWorker(s', u, plain, w);
    StartedNoRequeue(s', plain, w, u);
    es := plain + [Claim(u, w)];
  }

  lemma StartedNoRequeue(s: State, es: seq<Step>, w: nat, u: Uuid)
    requires StartedBy(s, es, w, u)
    ensures NoRequeue(es + [Claim(u, w)], u)
  {
    PlainIsNoRequeue(es, u);
  }
}
