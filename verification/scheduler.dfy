// The scheduler as a whole: the tree of channels and the registry of the jobs it knows, and
// what a notification about a job does to them.
module Scheduler {
  import opened ChannelJobs
  import opened ChannelTree
  import opened ChannelTurn
  import opened JobStates

  datatype Sched = Sched(tree: Tree, byUuid: map<Uuid, ChannelJob>)

  // The job is held by some channel.
  ghost predicate HeldIn(t: Tree, job: ChannelJob) {
    exists m :: m in t && job in Held(t[m])
  }

  ghost predicate RegisteredIn(s: Sched, ch: Chan) {
    forall j :: j in Held(ch) ==> j.uuid in s.byUuid && s.byUuid[j.uuid] == j
  }

  // The tree is sound, and a channel holds only jobs of the registry. There is therefore at
  // most one live job for a uuid.
  ghost predicate SchedOk(s: Sched) {
    && Sound(s.tree)
    && (forall u :: u in s.byUuid ==> s.byUuid[u].uuid == u && s.byUuid[u].channel in s.tree)
    && (forall m :: m in s.tree ==> RegisteredIn(s, s.tree[m]))
  }

  // ---------- Notifications ----------

  ghost function Forget(s: Sched, uuid: Uuid): Sched {
    if uuid in s.byUuid then
      Sched(Remove(s.tree, s.byUuid[uuid].channel, s.byUuid[uuid]), s.byUuid - {uuid})
    else s
  }

  // A job object that is not the known one replaces it.
  ghost function Register(s: Sched, job: ChannelJob): Sched {
    if job.uuid in s.byUuid && s.byUuid[job.uuid] == job then s
    else var s0 := Forget(s, job.uuid); s0.(byUuid := s0.byUuid[job.uuid := job])
  }

  ghost function Transition(t: Tree, job: ChannelJob, eta: Time, state: JobState): Tree
    requires Closed(t) && job.channel in t
  {
    match state
    case Done => Remove(t, job.channel, job)
    case Pending => SetPending(t, job.channel, job, eta)
    case Enqueued => SetRunning(t, job.channel, job)
    case Started => SetRunning(t, job.channel, job)
    case Failed => SetFailed(t, job.channel, job)
    case WaitDependencies => t
    case Cancelled => t
  }

  lemma ForgetClosed(s: Sched, job: ChannelJob)
    requires Closed(s.tree)
    ensures Closed(Register(s, job).tree) && Register(s, job).tree.Keys == s.tree.Keys
  {
    SameKeysClosed(s.tree, Register(s, job).tree);
  }

  // A notification with the data of a stored job, for which the scheduler uses the object `job`.
  ghost function Notify(s: Sched, job: ChannelJob, eta: Time, state: JobState): Sched
    requires Closed(s.tree) && job.channel in s.tree
  {
    var s1 := Register(s, job);
    ForgetClosed(s, job);
    s1.(tree := Transition(s1.tree, job, eta, state))
  }

  ghost predicate HoldsNone(ch: Chan, uuid: Uuid) {
    forall j :: j in Held(ch) ==> j.uuid != uuid
  }

  ghost predicate HeldNowhere(t: Tree, uuid: Uuid) {
    forall m :: m in t ==> HoldsNone(t[m], uuid)
  }

  lemma UnregisteredHeldNowhere(s: Sched, uuid: Uuid)
    requires SchedOk(s) && uuid !in s.byUuid
    ensures HeldNowhere(s.tree, uuid)
  {
    hide Sound;
    forall m | m in s.tree ensures HoldsNone(s.tree[m], uuid) {
      assert RegisteredIn(s, s.tree[m]);
    }
  }

  lemma ForgetKnown(s: Sched, uuid: Uuid, m: ChannelPath)
    requires SchedOk(s) && uuid in s.byUuid && m in s.tree
    requires m in Forget(s, uuid).tree && Forget(s, uuid).tree[m] == Without(s.tree[m], s.byUuid[uuid])
    ensures RegisteredIn(Forget(s, uuid), Forget(s, uuid).tree[m])
  {
    assert RegisteredIn(s, s.tree[m]);
  }

  lemma ForgetTree(s: Sched, uuid: Uuid)
    requires SchedOk(s) && uuid in s.byUuid
    ensures Sound(Forget(s, uuid).tree) && Forget(s, uuid).tree.Keys == s.tree.Keys
    ensures Forget(s, uuid).byUuid == s.byUuid - {uuid}
    ensures forall m :: m in s.tree ==> Forget(s, uuid).tree[m] == Without(s.tree[m], s.byUuid[uuid])
  {
    RemoveSound(s.tree, s.byUuid[uuid]);
  }

  lemma SchedOkParts(s: Sched)
    requires Sound(s.tree)
    requires forall u :: u in s.byUuid ==> s.byUuid[u].uuid == u && s.byUuid[u].channel in s.tree
    requires forall m :: m in s.tree ==> RegisteredIn(s, s.tree[m])
    ensures SchedOk(s)
  {
  }

  lemma RegistryOf(s: Sched)
    requires SchedOk(s)
    ensures forall u :: u in s.byUuid ==> s.byUuid[u].uuid == u && s.byUuid[u].channel in s.tree
  {
  }

  lemma ForgetNone(s: Sched, uuid: Uuid)
    requires uuid !in s.byUuid
    ensures Forget(s, uuid) == s && s.byUuid - {uuid} == s.byUuid
  {
  }

  lemma ForgetOk(s: Sched, uuid: Uuid)
    requires SchedOk(s)
    ensures SchedOk(Forget(s, uuid)) && uuid !in Forget(s, uuid).byUuid && HeldNowhere(Forget(s, uuid).tree, uuid)
    ensures Forget(s, uuid).tree.Keys == s.tree.Keys && Forget(s, uuid).byUuid == s.byUuid - {uuid}
  {
    hide *;
    if uuid in s.byUuid {
      ForgetTree(s, uuid);
      forall m | m in s.tree ensures RegisteredIn(Forget(s, uuid), Forget(s, uuid).tree[m]) {
        ForgetKnown(s, uuid, m);
      }
      RegistryOf(s);
      SchedOkParts(Forget(s, uuid));
    } else {
      ForgetNone(s, uuid);
    }
    UnregisteredHeldNowhere(Forget(s, uuid), uuid);
  }

  lemma RegisterNew(s: Sched, job: ChannelJob)
    requires SchedOk(s) && job.channel in s.tree && HeldNowhere(s.tree, job.uuid)
    ensures SchedOk(s.(byUuid := s.byUuid[job.uuid := job]))
  {
    hide Sound, RegisteredIn, HoldsNone;
    var s1 := s.(byUuid := s.byUuid[job.uuid := job]);
    forall m | m in s1.tree ensures RegisteredIn(s1, s1.tree[m]) {
      RegisteredStill(s, s1, s.tree[m], job);
    }
  }

  lemma RegisterOk(s: Sched, job: ChannelJob)
    requires SchedOk(s) && job.channel in s.tree
    ensures SchedOk(Register(s, job)) && Register(s, job).tree.Keys == s.tree.Keys
    ensures Register(s, job).byUuid == s.byUuid[job.uuid := job]
    ensures Register(s, job) == s || HeldNowhere(Register(s, job).tree, job.uuid)
  {
    hide SchedOk, Forget, HeldNowhere;
    if !(job.uuid in s.byUuid && s.byUuid[job.uuid] == job) {
      ForgetOk(s, job.uuid);
      RegisterNew(Forget(s, job.uuid), job);
      assert (s.byUuid - {job.uuid})[job.uuid := job] == s.byUuid[job.uuid := job];
    }
  }

  lemma TransitionSound(t: Tree, job: ChannelJob, eta: Time, state: JobState)
    requires Sound(t) && job.channel in t
    ensures Sound(Transition(t, job, eta, state)) && Transition(t, job, eta, state).Keys == t.Keys
    ensures forall m :: m in t ==> Held(Transition(t, job, eta, state)[m]) <= Held(t[m]) + {job}
  {
    hide Sound;
    match state
    case Done => RemoveSound(t, job);
    case Pending => SetPendingSound(t, job, eta);
    case Enqueued => SetRunningSound(t, job);
    case Started => SetRunningSound(t, job);
    case Failed => SetFailedSound(t, job);
    case WaitDependencies =>
    case Cancelled =>
  }

  // Changing the tree by holding at most one more, registered job keeps the scheduler in order.
  lemma TreeStepOk(s: Sched, t': Tree, job: ChannelJob)
    requires SchedOk(s) && job.uuid in s.byUuid && s.byUuid[job.uuid] == job
    requires Sound(t') && t'.Keys == s.tree.Keys
    requires forall m :: m in s.tree ==> Held(t'[m]) <= Held(s.tree[m]) + {job}
    ensures SchedOk(s.(tree := t'))
  {
    hide Sound, RegisteredIn, Held;
    var s' := s.(tree := t');
    forall m | m in s'.tree ensures RegisteredIn(s', s'.tree[m]) {
      RegisteredMore(s, s', s.tree[m], s'.tree[m], job);
    }
  }

  lemma TransitionOk(s: Sched, job: ChannelJob, eta: Time, state: JobState)
    requires SchedOk(s) && job.uuid in s.byUuid && s.byUuid[job.uuid] == job && Closed(s.tree)
    ensures SchedOk(s.(tree := Transition(s.tree, job, eta, state)))
  {
    TransitionSound(s.tree, job, eta, state);
    hide Sound, Transition, RegisteredIn, Held;
    TreeStepOk(s, Transition(s.tree, job, eta, state), job);
  }

  lemma RegisteredMore(s: Sched, s': Sched, ch: Chan, ch': Chan, job: ChannelJob)
    requires RegisteredIn(s, ch) && Held(ch') <= Held(ch) + {job}
    requires s'.byUuid == s.byUuid && job.uuid in s.byUuid && s.byUuid[job.uuid] == job
    ensures RegisteredIn(s', ch')
  {
  }

  lemma RegisteredStill(s: Sched, s': Sched, ch: Chan, job: ChannelJob)
    requires RegisteredIn(s, ch) && HoldsNone(ch, job.uuid) && s'.byUuid == s.byUuid[job.uuid := job]
    ensures RegisteredIn(s', ch)
  {
  }

  // Notifications keep the tree sound and the registry faithful, also when the properties of a
  // job have changed and a new job object takes the place of the old one.
  lemma NotifyOk(s: Sched, job: ChannelJob, eta: Time, state: JobState)
    requires SchedOk(s) && job.channel in s.tree
    ensures SchedOk(Notify(s, job, eta, state)) && Notify(s, job, eta, state).tree.Keys == s.tree.Keys
    ensures Notify(s, job, eta, state).byUuid == s.byUuid[job.uuid := job]
  {
    assert Closed(s.tree);
    hide Register, Transition, SchedOk;
    RegisterOk(s, job);
    ForgetClosed(s, job);
    TransitionOk(Register(s, job), job, eta, state);
    TransitionKeys(Register(s, job).tree, job, eta, state);
  }

  lemma TransitionKeys(t: Tree, job: ChannelJob, eta: Time, state: JobState)
    requires Closed(t) && job.channel in t
    ensures Transition(t, job, eta, state).Keys == t.Keys
  {
  }

  // The registry does not keep jobs alive that no channel holds.
  ghost predicate Dropped(s: Sched, s': Sched) {
    && s'.tree == s.tree && s'.byUuid.Keys <= s.byUuid.Keys
    && (forall u :: u in s'.byUuid ==> s'.byUuid[u] == s.byUuid[u])
    && (forall u :: u in s.byUuid && u !in s'.byUuid ==> !HeldIn(s.tree, s.byUuid[u]))
  }

  lemma DroppedOk(s: Sched, s': Sched)
    requires SchedOk(s) && Dropped(s, s')
    ensures SchedOk(s')
  {
    forall m | m in s'.tree ensures RegisteredIn(s', s'.tree[m]) {
      assert RegisteredIn(s, s.tree[m]);
      forall j | j in Held(s'.tree[m]) ensures j.uuid in s'.byUuid {
        assert HeldIn(s.tree, j);
      }
    }
  }

  // A call of get_jobs_to_run holds the same jobs as before.
  lemma {:induction false} TurnHolds(t: Tree, now: Time, t': Tree, jobs: seq<ChannelJob>, m: ChannelPath, job: ChannelJob)
    requires Sound(t) && Turn(t, Root, now, t', jobs) && m in t' && job in Held(t'[m])
    ensures job.channel in t && job in Held(t[job.channel])
  {
    HeldAtHome(t', m, job);
    WithinRoot(job.channel);
    assert AdvanceAt(t, job.channel, now, t');
    assert job in Held(t'[job.channel]);
  }

  lemma TurnOk(s: Sched, now: Time, t': Tree, jobs: seq<ChannelJob>)
    requires SchedOk(s) && Turn(s.tree, Root, now, t', jobs)
    ensures SchedOk(s.(tree := t'))
  {
    var s' := s.(tree := t');
    forall m | m in t' ensures RegisteredIn(s', t'[m]) {
      forall j | j in Held(t'[m]) ensures j.uuid in s.byUuid && s.byUuid[j.uuid] == j {
        TurnHolds(s.tree, now, t', jobs, m, j);
        assert RegisteredIn(s, s.tree[j.channel]);
      }
    }
  }

  // ---------- New channels ----------

  lemma AddChannelOk(s: Sched, n: ChannelPath, capacity: int)
    requires SchedOk(s) && n.Sub? && n.parent in s.tree && n !in s.tree
    ensures SchedOk(s.(tree := s.tree[n := EmptyChan(capacity)]))
  {
    var s' := s.(tree := s.tree[n := EmptyChan(capacity)]);
    AddChannelSound(s.tree, n, capacity);
    hide Sound;
    forall m | m in s'.tree ensures RegisteredIn(s', s'.tree[m]) {
      if m != n { assert RegisteredIn(s, s.tree[m]); }
    }
  }

  lemma OneChannelOk(s: Sched)
    requires s == Sched(map[Root := EmptyChan(1)], map[])
    ensures SchedOk(s)
  {
    assert ParentIn(s.tree, Root) && SoundAt(s.tree, Root);
  }
}
