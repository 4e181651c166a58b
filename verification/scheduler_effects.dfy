// What the steps of the scheduler do to the set of jobs that run in the root channel and to the
// set of jobs held at all, job by uuid.
module SchedulerEffects {
  import opened ChannelJobs
  import opened ChannelTree
  import opened ChannelTurn
  import opened JobStates
  import opened Scheduler

  ghost function Running(s: Sched): set<Uuid>
    requires Root in s.tree
  {
    UuidsOf(s.tree[Root].running)
  }

  ghost function UuidsOf(jobs: set<ChannelJob>): set<Uuid> {
    set j | j in jobs :: j.uuid
  }

  ghost predicate Holds(s: Sched, u: Uuid) {
    !HeldNowhere(s.tree, u)
  }

  predicate Active(state: JobState) {
    state.Enqueued? || state.Started?
  }

  // A notification with one of these states makes the scheduler hold the job.
  predicate Holding(state: JobState) {
    Active(state) || state.Pending? || state.Failed?
  }

  ghost function Uuids(jobs: seq<ChannelJob>): seq<Uuid> {
    seq(|jobs|, i requires 0 <= i < |jobs| => jobs[i].uuid)
  }

  lemma RootIn(s: Sched)
    requires SchedOk(s)
    ensures Root in s.tree && Closed(s.tree) && RegisteredIn(s, s.tree[Root])
  {
  }

  lemma RunningIsRegistered(s: Sched, u: Uuid)
    requires SchedOk(s) && Root in s.tree
    ensures u in s.byUuid ==> s.byUuid[u].uuid == u
    ensures u in Running(s) <==> u in s.byUuid && s.byUuid[u] in s.tree[Root].running
  {
    assert RegisteredIn(s, s.tree[Root]);
    if u in Running(s) {
      var j :| j in s.tree[Root].running && j.uuid == u;
      assert j in Held(s.tree[Root]);
    }
  }

  lemma {:induction false} CountUuids(jobs: set<ChannelJob>)
    requires forall a, b :: a in jobs && b in jobs && a.uuid == b.uuid ==> a == b
    ensures |UuidsOf(jobs)| == |jobs|
  {
    if jobs != {} {
      var j :| j in jobs;
      CountUuids(jobs - {j});
      assert UuidsOf(jobs) == UuidsOf(jobs - {j}) + {j.uuid} && j.uuid !in UuidsOf(jobs - {j});
    }
  }

  // There is one running job object for each running uuid.
  lemma CountRunning(s: Sched)
    requires SchedOk(s) && Root in s.tree
    ensures |Running(s)| == |s.tree[Root].running|
  {
    assert RegisteredIn(s, s.tree[Root]);
    forall a, b | a in s.tree[Root].running && b in s.tree[Root].running && a.uuid == b.uuid ensures a == b {
      assert a in Held(s.tree[Root]) && b in Held(s.tree[Root]);
    }
    CountUuids(s.tree[Root].running);
  }

  // A job that runs in the root channel waits in no queue.
  lemma RunningNotQueued(s: Sched, u: Uuid, m: ChannelPath, job: ChannelJob)
    requires SchedOk(s) && Root in s.tree && u in Running(s) && m in s.tree && job in Queued(s.tree[m])
    ensures job.uuid != u
  {
    RunningIsRegistered(s, u);
    assert RegisteredIn(s, s.tree[m]) && SoundAt(s.tree, m) && job in Held(s.tree[m]);
    if job.uuid == u {
      WithinRoot(m);
      RunningInChild(s.tree, Root, m, job);
    }
  }

  // ---------- Notifications ----------

  lemma ForgetAtRoot(s: Sched, u: Uuid)
    requires Root in s.tree
    ensures Root in Forget(s, u).tree
    ensures u in s.byUuid ==> Forget(s, u).tree[Root].running == s.tree[Root].running - {s.byUuid[u]}
    ensures u !in s.byUuid ==> Forget(s, u) == s
    ensures Forget(s, u).tree[Root].capacity == s.tree[Root].capacity
  {
    if u in s.byUuid { WithinRoot(s.byUuid[u].channel); }
  }

  lemma ForgetRunning(s: Sched, u: Uuid)
    requires SchedOk(s) && Root in s.tree
    ensures Root in Forget(s, u).tree && Running(Forget(s, u)) == Running(s) - {u}
  {
    ForgetAtRoot(s, u);
    forall v ensures v in Running(Forget(s, u)) <==> v in Running(s) && v != u {
      ForgetRunningAt(s, u, v);
    }
  }

  lemma ForgetRunningAt(s: Sched, u: Uuid, v: Uuid)
    requires SchedOk(s) && Root in s.tree
    ensures Root in Forget(s, u).tree && (v in Running(Forget(s, u)) <==> v in Running(s) && v != u)
  {
    hide *;
    ForgetOk(s, u);
    ForgetAtRoot(s, u);
    RunningIsRegistered(s, u);
    RunningIsRegistered(s, v);
    RunningIsRegistered(Forget(s, u), v);
  }

  lemma RegisterRunning(s: Sched, job: ChannelJob)
    requires SchedOk(s) && Root in s.tree && job.channel in s.tree
    ensures Root in Register(s, job).tree
    ensures Running(Register(s, job)) == Running(s) || Running(Register(s, job)) == Running(s) - {job.uuid}
    ensures Register(s, job) == s || !Holds(Register(s, job), job.uuid)
    ensures Register(s, job).tree[Root].capacity == s.tree[Root].capacity
  {
    RegisterOk(s, job);
    ForgetRunning(s, job.uuid);
    ForgetAtRoot(s, job.uuid);
    if Register(s, job) != s {
      assert Register(s, job).tree == Forget(s, job.uuid).tree;
    }
  }

  lemma RunningOf(s: Sched, job: ChannelJob, t': Tree)
    requires SchedOk(s) && SchedOk(s.(tree := t')) && Root in s.tree && Root in t'
    requires job.uuid in s.byUuid && s.byUuid[job.uuid] == job
    requires t'[Root].running == s.tree[Root].running - {job} || t'[Root].running == s.tree[Root].running + {job}
    ensures var s' := s.(tree := t');
      if job in t'[Root].running then Running(s') == Running(s) + {job.uuid}
      else Running(s') == Running(s) - {job.uuid}
  {
    var s' := s.(tree := t');
    forall v ensures v in Running(s') <==> (if v == job.uuid then job in t'[Root].running else v in Running(s)) {
      RunningIsRegistered(s, v);
      RunningIsRegistered(s', v);
    }
  }

  // How the set of jobs running in the root channel itself changes.
  lemma TransitionAtRoot(t: Tree, job: ChannelJob, eta: Time, state: JobState)
    requires Sound(t) && Closed(t) && job.channel in t
    ensures var t' := Transition(t, job, eta, state);
      && (Active(state) ==> t'[Root].running == t[Root].running + {job} || t' == t)
      && (Active(state) && (forall m :: m in t ==> job !in Held(t[m])) ==> job in t'[Root].running)
      && (state.Pending? || state.Done? || state.Failed? ==> t'[Root].running == t[Root].running - {job})
      && (state.WaitDependencies? || state.Cancelled? ==> t' == t)
      && t'[Root].capacity == t[Root].capacity
  {
    WithinRoot(job.channel);
    var n := job.channel;
    assert SoundAt(t, n) && SoundAt(t, Root);
    if Active(state) {
      SetRunningSound(t, job);
    } else if state.Pending? && job in Queued(t[n]) {
      NotRunningOnlyAtHome(t, job);
      assert job !in t[Root].running;
    } else if state.Failed? && job in t[n].failed {
      NotRunningOnlyAtHome(t, job);
      assert job !in t[Root].running;
    }
  }

  // A notification changes nothing for other jobs. A job that runs in the root channel keeps
  // running exactly if the notification says that it is enqueued or started.
  lemma NotifyRunning(s: Sched, job: ChannelJob, eta: Time, state: JobState)
    requires SchedOk(s) && job.channel in s.tree && Closed(s.tree)
    ensures SchedOk(Notify(s, job, eta, state)) && Root in s.tree && Root in Notify(s, job, eta, state).tree
    ensures var R, R' := Running(s), Running(Notify(s, job, eta, state));
      && R - {job.uuid} <= R' <= R + {job.uuid}
      && (Active(state) ==> R <= R')
      && (Active(state) && !Holds(s, job.uuid) ==> job.uuid in R')
      && (!Active(state) ==> R' <= R)
      && (state.Pending? || state.Done? || state.Failed? ==> job.uuid !in R')
    ensures Notify(s, job, eta, state).tree[Root].capacity == s.tree[Root].capacity
  {
    var s1 := Register(s, job);
    NotifyOk(s, job, eta, state);
    RegisterOk(s, job);
    RegisterRunning(s, job);
    ForgetClosed(s, job);
    TransitionAtRoot(s1.tree, job, eta, state);
    var t' := Transition(s1.tree, job, eta, state);
    hide SchedOk, Register, Transition, Holds, Running, ChannelTurn.HasCapacity;
    NotifyIs(s, job, eta, state);
    if t'[Root].running == s1.tree[Root].running - {job} || t'[Root].running == s1.tree[Root].running + {job} {
      RunningOf(s1, job, t');
    }
    NowhereHeld(s1, job);
  }

  lemma NowhereHeld(s: Sched, job: ChannelJob)
    ensures !Holds(s, job.uuid) ==> forall m :: m in s.tree ==> job !in Held(s.tree[m])
  {
    if !Holds(s, job.uuid) {
      forall m | m in s.tree ensures job !in Held(s.tree[m]) {
        assert HoldsNone(s.tree[m], job.uuid);
      }
    }
  }

  lemma NotifyIs(s: Sched, job: ChannelJob, eta: Time, state: JobState)
    requires Closed(s.tree) && job.channel in s.tree && Closed(Register(s, job).tree) && job.channel in Register(s, job).tree
    ensures Notify(s, job, eta, state) == Register(s, job).(tree := Transition(Register(s, job).tree, job, eta, state))
  {
  }

  // A job that is not notified is held after a notification only if it was held before.
  lemma NotifyHolds(s: Sched, job: ChannelJob, eta: Time, state: JobState, v: Uuid)
    requires SchedOk(s) && job.channel in s.tree && Closed(s.tree)
    requires Holds(Notify(s, job, eta, state), v)
    ensures Holds(s, v) || (v == job.uuid && Holding(state))
  {
    var s1, s' := Register(s, job), Notify(s, job, eta, state);
    ForgetClosed(s, job);
    NotifyIs(s, job, eta, state);
    RegisterOk(s, job);
    TransitionKeys(s1.tree, job, eta, state);
    assert Sound(s1.tree);
    var m, j := HeldJob(s', v);
    hide SchedOk, Register, Transition, Holds, Notify, Sound, Closed, Held, Holding;
    TransitionHolds(s1.tree, job, eta, state, m, j);
    if j in Held(s1.tree[m]) {
      RegisterHolds(s, job, m, j);
    }
  }

  lemma HeldJob(s: Sched, u: Uuid) returns (m: ChannelPath, j: ChannelJob)
    requires Holds(s, u)
    ensures m in s.tree && j in Held(s.tree[m]) && j.uuid == u
  {
    m :| m in s.tree && !HoldsNone(s.tree[m], u);
    j :| j in Held(s.tree[m]) && j.uuid == u;
  }

  lemma TransitionHolds(t: Tree, job: ChannelJob, eta: Time, state: JobState, m: ChannelPath, j: ChannelJob)
    requires Sound(t) && Closed(t) && job.channel in t && m in t
    requires m in Transition(t, job, eta, state) && j in Held(Transition(t, job, eta, state)[m])
    ensures j in Held(t[m]) || (j == job && Holding(state))
  {
    TransitionSound(t, job, eta, state);
    TransitionNew(t, job, eta, state);
  }

  lemma TransitionNew(t: Tree, job: ChannelJob, eta: Time, state: JobState)
    requires Closed(t) && job.channel in t && Sound(t)
    ensures !Holding(state) ==> forall m :: m in t ==>
      m in Transition(t, job, eta, state) && Held(Transition(t, job, eta, state)[m]) <= Held(t[m])
  {
    if state.Done? { RemoveSound(t, job); }
  }

  lemma RegisterHolds(s: Sched, job: ChannelJob, m: ChannelPath, j: ChannelJob)
    requires m in Register(s, job).tree && j in Held(Register(s, job).tree[m])
    ensures Holds(s, j.uuid)
  {
    assert j in Held(s.tree[m]);
    assert !HoldsNone(s.tree[m], j.uuid);
  }

  // ---------- Calls of get_jobs_to_run ----------

  lemma TurnAtRoot(s: Sched, now: Time, t': Tree, jobs: seq<ChannelJob>)
    requires SchedOk(s) && Root in s.tree && Turn(s.tree, Root, now, t', jobs)
    ensures SchedOk(s.(tree := t')) && Root in t'
    ensures Yielded(s.tree[Root], t'[Root], jobs) && Bounded(s.tree[Root], t'[Root]) && SameSettings(s.tree[Root], t'[Root])
  {
    TurnOk(s, now, t', jobs);
    assert AdvanceAt(s.tree, Root, now, t');
  }

  // A call adds the jobs it yields, and no others, to those that run in the root channel.
  lemma TurnRunning(s: Sched, now: Time, t': Tree, jobs: seq<ChannelJob>)
    requires SchedOk(s) && Root in s.tree && Turn(s.tree, Root, now, t', jobs)
    ensures SchedOk(s.(tree := t')) && Root in t'
    ensures forall u :: u in Running(s.(tree := t')) <==> u in Running(s) || u in Uuids(jobs)
    ensures forall u :: u in Uuids(jobs) ==> u !in Running(s)
    ensures forall i, k :: 0 <= i < k < |jobs| ==> Uuids(jobs)[i] != Uuids(jobs)[k]
  {
    var s' := s.(tree := t');
    TurnAtRoot(s, now, t', jobs);
    RootIn(s');
    hide SchedOk, Turn, RegisteredIn, Bounded, Held;
    forall i | 0 <= i < |jobs| ensures jobs[i] in t'[Root].running && jobs[i] !in s.tree[Root].running {
      assert jobs[i] in Elements(jobs);
    }
    forall i | 0 <= i < |jobs|
      ensures jobs[i].uuid in s.byUuid && s.byUuid[jobs[i].uuid] == jobs[i]
    {
      RunningJobRegistered(s', jobs[i]);
    }
    forall u ensures u in Running(s') <==> u in Running(s) || u in Uuids(jobs) {
      RunningIsRegistered(s, u);
      RunningIsRegistered(s', u);
      if u in Running(s') && u !in Running(s) {
        assert s.byUuid[u] in Elements(jobs);
        var i :| 0 <= i < |jobs| && jobs[i] == s.byUuid[u];
        RunningJobRegistered(s', jobs[i]);
        assert Uuids(jobs)[i] == u;
      }
    }
    forall u | u in Uuids(jobs) ensures u !in Running(s) {
      RunningIsRegistered(s, u);
    }
  }

  lemma RunningJobRegistered(s: Sched, job: ChannelJob)
    requires SchedOk(s) && Root in s.tree && job in s.tree[Root].running
    ensures job.uuid in s.byUuid && s.byUuid[job.uuid] == job && job.uuid in Running(s)
  {
    assert RegisteredIn(s, s.tree[Root]) && job in Held(s.tree[Root]);
  }

  lemma TurnHoldsUuids(s: Sched, now: Time, t': Tree, jobs: seq<ChannelJob>, u: Uuid)
    requires SchedOk(s) && Root in s.tree && Turn(s.tree, Root, now, t', jobs) && Holds(s.(tree := t'), u)
    ensures Holds(s, u)
  {
    var m, j := HeldJob(s.(tree := t'), u);
    TurnHolds(s.tree, now, t', jobs, m, j);
    assert !HoldsNone(s.tree[j.channel], u);
  }

  lemma RunningHeld(s: Sched, u: Uuid)
    requires Root in s.tree && u in Running(s)
    ensures Holds(s, u)
  {
    var j :| j in s.tree[Root].running && j.uuid == u;
    assert j in Held(s.tree[Root]);
    assert !HoldsNone(s.tree[Root], u);
  }

  // A call does not start more jobs than the root channel has capacity for.
  lemma TurnBound(s: Sched, now: Time, t': Tree, jobs: seq<ChannelJob>)
    requires SchedOk(s) && Root in s.tree && Turn(s.tree, Root, now, t', jobs) && Root in t'
    requires s.tree[Root].capacity > 0 && |Running(s)| <= s.tree[Root].capacity
    ensures t'[Root].capacity == s.tree[Root].capacity && |Running(s.(tree := t'))| <= s.tree[Root].capacity
  {
    TurnAtRoot(s, now, t', jobs);
    CountRunning(s);
    CountRunning(s.(tree := t'));
  }

  // The registry drops only what no channel holds.
  lemma DropRunning(s: Sched, s': Sched)
    requires SchedOk(s) && Root in s.tree && Dropped(s, s')
    ensures SchedOk(s') && Root in s'.tree && Running(s') == Running(s) && forall u :: Holds(s', u) <==> Holds(s, u)
  {
    DroppedOk(s, s');
  }

  lemma AddChannelRunning(s: Sched, n: ChannelPath, capacity: int)
    requires SchedOk(s) && Root in s.tree && n.Sub? && n.parent in s.tree && n !in s.tree
    ensures var s' := s.(tree := s.tree[n := EmptyChan(capacity)]);
      SchedOk(s') && Root in s'.tree && Running(s') == Running(s) && (forall u :: Holds(s', u) ==> Holds(s, u))
  {
    var s' := s.(tree := s.tree[n := EmptyChan(capacity)]);
    AddChannelOk(s, n, capacity);
    forall u | Holds(s', u) ensures Holds(s, u) {
      var m, j := HeldJob(s', u);
      assert !HoldsNone(s.tree[m], u);
    }
  }

  // ---------- What waits in a queue ----------

  ghost predicate QueuesUuid(ch: Chan, u: Uuid) {
    exists j :: j in Queued(ch) && j.uuid == u
  }

  // Some channel has the job in its queue.
  ghost predicate Queues(s: Sched, u: Uuid) {
    exists m :: m in s.tree && QueuesUuid(s.tree[m], u)
  }

  lemma QueuedJob(s: Sched, u: Uuid) returns (m: ChannelPath, j: ChannelJob)
    requires Queues(s, u)
    ensures m in s.tree && j in Queued(s.tree[m]) && j.uuid == u
  {
    m :| m in s.tree && QueuesUuid(s.tree[m], u);
    j :| j in Queued(s.tree[m]) && j.uuid == u;
  }

  lemma QueuedIsHeld(s: Sched, u: Uuid)
    requires Queues(s, u)
    ensures Holds(s, u)
  {
    var m, j := QueuedJob(s, u);
    assert j in Held(s.tree[m]);
    assert !HoldsNone(s.tree[m], u);
  }

  lemma QueuedFrom(s: Sched, m: ChannelPath, j: ChannelJob)
    requires m in s.tree && j in Queued(s.tree[m])
    ensures Queues(s, j.uuid)
  {
    assert QueuesUuid(s.tree[m], j.uuid);
  }

  // Only a notification that a job is pending puts it into a queue.
  lemma TransitionQueues(t: Tree, job: ChannelJob, eta: Time, state: JobState, m: ChannelPath, j: ChannelJob)
    requires Sound(t) && Closed(t) && job.channel in t && m in t
    requires m in Transition(t, job, eta, state) && j in Queued(Transition(t, job, eta, state)[m])
    ensures j in Queued(t[m]) || (j == job && state.Pending?)
  {
    if Active(state) { SetRunningSound(t, job); }
  }

  lemma NotifyQueues(s: Sched, job: ChannelJob, eta: Time, state: JobState, v: Uuid)
    requires SchedOk(s) && job.channel in s.tree && Closed(s.tree)
    requires Queues(Notify(s, job, eta, state), v)
    ensures Queues(s, v) || (v == job.uuid && state.Pending?)
  {
    var s1, s' := Register(s, job), Notify(s, job, eta, state);
    ForgetClosed(s, job);
    NotifyIs(s, job, eta, state);
    RegisterOk(s, job);
    TransitionKeys(s1.tree, job, eta, state);
    assert Sound(s1.tree);
    var m, j := QueuedJob(s', v);
    hide SchedOk, Register, Transition, Queues, Notify, Sound, Closed, Queued;
    TransitionQueues(s1.tree, job, eta, state, m, j);
    if j in Queued(s1.tree[m]) {
      RegisterQueues(s, job, m, j);
    }
  }

  // A notification that a job is done or has failed takes it out of all queues.
  lemma NotifyUnqueues(s: Sched, job: ChannelJob, eta: Time, state: JobState)
    requires SchedOk(s) && job.channel in s.tree && Closed(s.tree) && (state.Done? || state.Failed?)
    ensures !Queues(Notify(s, job, eta, state), job.uuid)
  {
    var s1, s' := Register(s, job), Notify(s, job, eta, state);
    ForgetClosed(s, job);
    RegisterOk(s, job);
    NotifyOk(s, job, eta, state);
    TransitionUnqueues(s1.tree, job, eta, state);
    hide *;
    NotifyIs(s, job, eta, state);
    OnlyRegistered(s', job);
  }

  lemma OnlyRegistered(s: Sched, job: ChannelJob)
    requires SchedOk(s) && job.uuid in s.byUuid && s.byUuid[job.uuid] == job
    requires forall m :: m in s.tree ==> job !in Queued(s.tree[m])
    ensures !Queues(s, job.uuid)
  {
    forall m | m in s.tree ensures !QueuesUuid(s.tree[m], job.uuid) {
      assert RegisteredIn(s, s.tree[m]);
    }
  }

  lemma TransitionUnqueues(t: Tree, job: ChannelJob, eta: Time, state: JobState)
    requires Sound(t) && Closed(t) && job.channel in t && (state.Done? || state.Failed?)
    ensures Transition(t, job, eta, state).Keys == t.Keys
    ensures forall m :: m in t ==> job !in Queued(Transition(t, job, eta, state)[m])
  {
    if state.Done? {
      RemoveSound(t, job);
    } else {
      SetFailedSound(t, job);
      assert SoundAt(Transition(t, job, eta, state), job.channel);
    }
  }

  lemma RegisterQueues(s: Sched, job: ChannelJob, m: ChannelPath, j: ChannelJob)
    requires m in Register(s, job).tree && j in Queued(Register(s, job).tree[m])
    ensures Queues(s, j.uuid)
  {
    assert j in Queued(s.tree[m]);
    QueuedFrom(s, m, j);
  }

  // A job that runs in channel n and not in the root waits in the queue of a channel in between.
  lemma {:induction false} RunningUp(s: Sched, n: ChannelPath, job: ChannelJob)
    requires SchedOk(s) && n in s.tree && Root in s.tree && job in s.tree[n].running && job !in s.tree[Root].running
    ensures Queues(s, job.uuid)
    decreases n
  {
    assert ParentIn(s.tree, n);
    if n.Sub? {
      WithinRoot(n.parent);
      assert JoinedAt(s.tree, n);
      if job in s.tree[n.parent].ready {
        QueuedFrom(s, n.parent, job);
      } else {
        RunningUp(s, n.parent, job);
      }
    }
  }

  // What a call yields, or leaves in a queue, was in a queue before.
  lemma TurnFromQueues(s: Sched, now: Time, t': Tree, jobs: seq<ChannelJob>, m: ChannelPath, job: ChannelJob)
    requires SchedOk(s) && Root in s.tree && Turn(s.tree, Root, now, t', jobs) && Root in t'
    requires m in t' && job in Held(t'[m]) && job !in s.tree[Root].running
    requires job in Queued(t'[m]) || job in t'[m].running
    ensures Queues(s, job.uuid)
  {
    TurnHolds(s.tree, now, t', jobs, m, job);
    HeldAtHome(t', m, job);
    var n := job.channel;
    WithinRoot(n);
    assert AdvanceAt(s.tree, n, now, t') && SoundAt(t', n) && SoundAt(t', m);
    if job in s.tree[n].running {
      RunningUp(s, n, job);
    } else {
      QueuedFrom(s, n, job);
    }
  }

  lemma TurnQueues(s: Sched, now: Time, t': Tree, jobs: seq<ChannelJob>, u: Uuid)
    requires SchedOk(s) && Root in s.tree && Turn(s.tree, Root, now, t', jobs)
    requires Queues(s.(tree := t'), u) || u in Uuids(jobs)
    ensures Queues(s, u)
  {
    var s' := s.(tree := t');
    TurnRunning(s, now, t', jobs);
    TurnAtRoot(s, now, t', jobs);
    var m, job;
    if u in Uuids(jobs) {
      var i :| 0 <= i < |jobs| && jobs[i].uuid == u;
      m, job := Root, jobs[i];
      assert job in Elements(jobs);
    } else {
      m, job := QueuedJob(s', u);
      RunningNotRoot(s', m, job);
    }
    TurnFromQueues(s, now, t', jobs, m, job);
  }

  lemma RunningNotRoot(s: Sched, m: ChannelPath, job: ChannelJob)
    requires SchedOk(s) && Root in s.tree && m in s.tree && job in Queued(s.tree[m])
    ensures job !in s.tree[Root].running
  {
    if job in s.tree[Root].running {
      RunningJobRegistered(s, job);
      RunningNotQueued(s, job.uuid, m, job);
    }
  }

  lemma AddChannelQueues(s: Sched, n: ChannelPath, capacity: int, u: Uuid)
    requires n !in s.tree && Queues(s.(tree := s.tree[n := EmptyChan(capacity)]), u)
    ensures Queues(s, u)
  {
    var m, j := QueuedJob(s.(tree := s.tree[n := EmptyChan(capacity)]), u);
    QueuedFrom(s, m, j);
  }
}
