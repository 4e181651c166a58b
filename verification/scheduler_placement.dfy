// Where notifications put the jobs they are about, and that they leave all others where they are.
module SchedulerPlacement {
  import opened ChannelJobs
  import opened ChannelTree
  import opened JobStates
  import opened Scheduler
  import opened SchedulerEffects

  // In its own channel a pending job is in the queue that its eta asks for and a failed one is among
  // the failed jobs. An enqueued or started one runs in its channel and all below it, and all others
  // are held by no channel.
  ghost predicate PlacedIn(t: Tree, job: ChannelJob, eta: Time, state: JobState) {
    job.channel in t &&
    match state
    case Pending =>
      if eta != 0.0 then job in t[job.channel].waiting && t[job.channel].waiting[job] == eta
      else job in t[job.channel].ready
    case Enqueued => RunsIn(t, job)
    case Started => RunsIn(t, job)
    case Failed => job in t[job.channel].failed
    case WaitDependencies => HeldNowhere(t, job.uuid)
    case Cancelled => HeldNowhere(t, job.uuid)
    case Done => HeldNowhere(t, job.uuid)
  }

  ghost predicate RunsIn(t: Tree, job: ChannelJob) {
    forall m :: m in t && Within(m, job.channel) ==> job in t[m].running
  }

  // The scheduler knows the job by this object, which is where its state puts it.
  ghost predicate Placed(s: Sched, job: ChannelJob, eta: Time, state: JobState) {
    job.uuid in s.byUuid && s.byUuid[job.uuid] == job && PlacedIn(s.tree, job, eta, state)
  }

  // ---------- The job itself ----------

  lemma NowhereInHeld(t: Tree, job: ChannelJob, m: ChannelPath)
    requires HeldNowhere(t, job.uuid) && m in t
    ensures job !in Held(t[m])
  {
    assert HoldsNone(t[m], job.uuid);
  }

  lemma RunFromRuns(t: Tree, job: ChannelJob)
    ensures RunsIn(RunFrom(t, job.channel, job), job)
  {
  }

  lemma RemovedNowhere(t: Tree, job: ChannelJob)
    requires HeldNowhere(t, job.uuid)
    ensures HeldNowhere(Remove(t, job.channel, job), job.uuid)
  {
    forall m | m in t ensures HoldsNone(Remove(t, job.channel, job)[m], job.uuid) {
      assert HoldsNone(t[m], job.uuid);
    }
  }

  lemma TransitionPlaces(t: Tree, job: ChannelJob, eta: Time, state: JobState)
    requires Sound(t) && Closed(t) && job.channel in t && HeldNowhere(t, job.uuid)
    ensures PlacedIn(Transition(t, job, eta, state), job, eta, state)
  {
    NowhereInHeld(t, job, job.channel);
    if Active(state) { SetRunningSound(t, job); }
    hide Sound, HeldNowhere, RunsIn;
    if Active(state) { RunFromRuns(t, job); }
    if state.Done? { RemovedNowhere(t, job); }
  }

  // ---------- Other jobs ----------

  // The channel treats the jobs with this uuid the same way as before.
  ghost predicate SameFor(ch: Chan, ch': Chan, u: Uuid) {
    forall j :: j in Held(ch) + Held(ch') && j.uuid == u ==> SameForJob(ch, ch', j)
  }

  ghost predicate SameForJob(ch: Chan, ch': Chan, j: ChannelJob) {
    && (j in ch'.waiting <==> j in ch.waiting) && (j in ch.waiting ==> ch'.waiting[j] == ch.waiting[j])
    && (j in ch'.ready <==> j in ch.ready) && (j in ch'.running <==> j in ch.running)
    && (j in ch'.failed <==> j in ch.failed)
  }

  lemma SameAgain(ch0: Chan, ch1: Chan, ch2: Chan, u: Uuid)
    requires SameFor(ch0, ch1, u) && SameFor(ch1, ch2, u)
    ensures SameFor(ch0, ch2, u)
  {
    forall j | j in Held(ch0) + Held(ch2) && j.uuid == u ensures SameForJob(ch0, ch2, j) {
      assert j in Held(ch0) + Held(ch1) || j in Held(ch1) + Held(ch2);
      assert j in Held(ch1);
    }
  }

  lemma OneElsewhere(ch: Chan, job: ChannelJob, eta: Time, u: Uuid)
    requires u != job.uuid
    ensures SameFor(ch, Without(ch, job), u) && SameFor(ch, Run(ch, job), u)
    ensures SameFor(ch, Fail(ch, job), u) && SameFor(ch, Pend(ch, job, eta), u) && SameFor(ch, ch, u)
  {
  }

  lemma TransitionElsewhere(t: Tree, job: ChannelJob, eta: Time, state: JobState, m: ChannelPath, u: Uuid)
    requires Sound(t) && Closed(t) && job.channel in t && m in t && u != job.uuid
    ensures m in Transition(t, job, eta, state) && SameFor(t[m], Transition(t, job, eta, state)[m], u)
  {
    OneElsewhere(t[m], job, eta, u);
    if Active(state) { SetRunningSound(t, job); }
    hide SameFor, Without, Run, Fail, Pend, Sound;
  }

  lemma HeldStays(ch: Chan, ch': Chan, u: Uuid)
    requires SameFor(ch, ch', u) && HoldsNone(ch, u)
    ensures HoldsNone(ch', u)
  {
  }

  lemma MemberStays(ch: Chan, ch': Chan, j: ChannelJob)
    requires SameFor(ch, ch', j.uuid) && j in Held(ch)
    ensures SameForJob(ch, ch', j)
  {
  }

  lemma StaysIn(t: Tree, t': Tree, job: ChannelJob, eta: Time, state: JobState)
    requires PlacedIn(t, job, eta, state) && t'.Keys == t.Keys
    requires forall m :: m in t ==> SameFor(t[m], t'[m], job.uuid)
    ensures PlacedIn(t', job, eta, state)
  {
    hide SameFor;
    if job in Held(t[job.channel]) { MemberStays(t[job.channel], t'[job.channel], job); }
    if HeldNowhere(t, job.uuid) {
      forall m | m in t' ensures HoldsNone(t'[m], job.uuid) {
        HeldStays(t[m], t'[m], job.uuid);
      }
    }
    if RunsIn(t, job) {
      forall m | m in t' && Within(m, job.channel) ensures job in t'[m].running {
        MemberStays(t[m], t'[m], job);
      }
    }
  }

  // ---------- Notifications ----------

  // A new job object, whether it replaces another one or not, is put where its state says.
  lemma NotifyPlaces(s: Sched, job: ChannelJob, eta: Time, state: JobState)
    requires SchedOk(s) && job.channel in s.tree && Closed(s.tree)
    requires job.uuid in s.byUuid ==> s.byUuid[job.uuid] != job
    ensures Placed(Notify(s, job, eta, state), job, eta, state)
  {
    RegisterOk(s, job);
    ForgetClosed(s, job);
    NotifyOk(s, job, eta, state);
    assert Sound(Register(s, job).tree) && Register(s, job).byUuid[job.uuid] == job;
    hide SchedOk, Register, Notify, Transition, PlacedIn, HeldNowhere, Sound;
    NotifyIs(s, job, eta, state);
    assert Register(s, job) != s;
    TransitionPlaces(Register(s, job).tree, job, eta, state);
  }

  lemma RegisteredAt(s: Sched, job: ChannelJob, m: ChannelPath)
    requires SchedOk(s) && m in s.tree
    ensures m in Register(s, job).tree
    ensures Register(s, job).tree[m] == s.tree[m] || (job.uuid in s.byUuid && Register(s, job).tree[m] == Without(s.tree[m], s.byUuid[job.uuid]))
    ensures job.uuid in s.byUuid ==> s.byUuid[job.uuid].uuid == job.uuid
  {
    hide Sound, Without, RegisteredIn;
  }

  lemma RegisterElsewhere(s: Sched, job: ChannelJob, m: ChannelPath, u: Uuid)
    requires SchedOk(s) && m in s.tree && u != job.uuid
    ensures m in Register(s, job).tree && SameFor(s.tree[m], Register(s, job).tree[m], u)
  {
    hide *;
    RegisteredAt(s, job, m);
    OneElsewhere(s.tree[m], job, 0.0, u);
    if job.uuid in s.byUuid { OneElsewhere(s.tree[m], s.byUuid[job.uuid], 0.0, u); }
  }

  lemma NotifyElsewhere(s: Sched, job: ChannelJob, eta: Time, state: JobState, m: ChannelPath, u: Uuid)
    requires SchedOk(s) && job.channel in s.tree && Closed(s.tree) && m in s.tree && u != job.uuid
    ensures m in Notify(s, job, eta, state).tree && SameFor(s.tree[m], Notify(s, job, eta, state).tree[m], u)
  {
    RegisterOk(s, job);
    ForgetClosed(s, job);
    assert Sound(Register(s, job).tree);
    RegisterElsewhere(s, job, m, u);
    hide SchedOk, Register, Notify, Transition, Sound, SameFor;
    NotifyIs(s, job, eta, state);
    TransitionElsewhere(Register(s, job).tree, job, eta, state, m, u);
    SameAgain(s.tree[m], Register(s, job).tree[m], Notify(s, job, eta, state).tree[m], u);
  }

  lemma PlacedIs(s: Sched, job: ChannelJob, eta: Time, state: JobState)
    ensures Placed(s, job, eta, state) <==>
      job.uuid in s.byUuid && s.byUuid[job.uuid] == job && PlacedIn(s.tree, job, eta, state)
  {
  }

  // A notification leaves all other jobs where they are.
  lemma StaysPlaced(s: Sched, job: ChannelJob, eta: Time, state: JobState, other: ChannelJob, eta0: Time, state0: JobState)
    requires SchedOk(s) && job.channel in s.tree && Closed(s.tree)
    requires Placed(s, other, eta0, state0) && other.uuid != job.uuid
    ensures Placed(Notify(s, job, eta, state), other, eta0, state0)
  {
    hide *;
    NotifyOk(s, job, eta, state);
    var s' := Notify(s, job, eta, state);
    PlacedIs(s, other, eta0, state0);
    PlacedIs(s', other, eta0, state0);
    forall m | m in s.tree ensures SameFor(s.tree[m], s'.tree[m], other.uuid) {
      NotifyElsewhere(s, job, eta, state, m, other.uuid);
    }
    StaysIn(s.tree, s'.tree, other, eta0, state0);
  }
}
