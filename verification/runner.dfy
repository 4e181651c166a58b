// The runner: it keeps the scheduler informed of the table of jobs and dispatches what the
// scheduler yields.
module Runners {
  import opened ChannelJobs
  import opened ChannelTree
  import opened ChannelTurn
  import opened Channels
  import opened ChannelManagers
  import opened JobStates
  import opened JobRows
  import opened Jobs
  import opened Scheduler
  import opened SchedulerEffects
  import opened SchedulerPlacement
  import opened RunnerProtocol
  import opened ProtocolSafety
  import opened RunnerStart

  // The columns of a job that only the scheduler needs, with the channel found by its name.
  datatype JobData = JobData(channel: ChannelPath, seqNo: int, dateCreated: int, priority: int, eta: Time)

  // The object was made from the data of a job.
  ghost predicate FromData(job: ChannelJob, dbName: string, d: JobData) {
    && job.dbName == dbName && job.channel == d.channel && job.seqNo == d.seqNo
    && job.dateCreated == d.dateCreated && job.priority == d.priority
  }

  // The first n of the yielded jobs are marked as enqueued.
  ghost function DispatchAll(rows: Rows, jobs: seq<Uuid>, n: nat): Rows
    requires n <= |jobs|
  {
    if n == 0 then rows else SetEnqueued(DispatchAll(rows, jobs, n - 1), jobs[n - 1])
  }

  // The yielded jobs are dispatched one after the other, until the runner is asked to stop.
  method RunJobs(manager: ChannelManager, table: JobTable, now: Time, stopAfter: nat) returns (ghost jobs: seq<ChannelJob>)
    requires manager.Valid() && Root in manager.View().tree
    modifies manager.forest.channels`running, manager.forest.channels`pauseUntil, manager.forest.heaps,
      manager.forest.jobs`eta, table`rows
    ensures manager.Valid() && Turn(old(manager.View()).tree, Root, now, manager.View().tree, jobs)
    ensures manager.View() == old(manager.View()).(tree := manager.View().tree)
    ensures table.rows == DispatchAll(old(table.rows), Uuids(jobs), if stopAfter < |jobs| then stopAfter else |jobs|)
  {
    hide *;
    var yielded := manager.GetJobsToRun(now);
    jobs := yielded;
    DispatchYielded(table, yielded, stopAfter);
  }

  method DispatchYielded(table: JobTable, yielded: seq<ChannelJob>, stopAfter: nat)
    modifies table`rows
    ensures table.rows ==
      DispatchAll(old(table.rows), Uuids(yielded), if stopAfter < |yielded| then stopAfter else |yielded|)
  {
    var n := 0;
    while n < |yielded| && n < stopAfter
      invariant 0 <= n <= |yielded| && n <= stopAfter
      invariant table.rows == DispatchAll(old(table.rows), Uuids(yielded), n)
    {
      table.rows := SetEnqueued(table.rows, yielded[n].uuid);
      n := n + 1;
    }
  }

  lemma {:induction false} DispatchSteps(s: State, n: nat)
    requires n <= |s.outbox|
    ensures CanAll(s, seq(n, _ => Dispatch))
    ensures DoAll(s, seq(n, _ => Dispatch)) == s.(rows := DispatchAll(s.rows, s.outbox, n), outbox := s.outbox[n..])
    decreases n
  {
    if n > 0 {
      var s' := Do(s, Dispatch);
      DispatchSteps(s', n - 1);
      assert seq(n, _ => Dispatch)[1..] == seq(n - 1, _ => Dispatch);
      DispatchFirst(s.rows, s.outbox, n);
    }
  }

  lemma {:induction false} DispatchFirst(rows: Rows, jobs: seq<Uuid>, n: nat)
    requires 0 < n <= |jobs|
    ensures DispatchAll(rows, jobs, n) == DispatchAll(SetEnqueued(rows, jobs[0]), jobs[1..], n - 1)
  {
    if n > 1 { DispatchFirst(rows, jobs, n - 1); }
  }

  // A call of run_jobs that nobody disturbs is a run of the protocol.
  lemma RunJobsIsProtocol(s: State, now: Time, t': Tree, jobs: seq<ChannelJob>, n: nat)
    requires RunnerFree(s) && Root in s.sched.tree && Turn(s.sched.tree, Root, now, t', jobs) && n <= |jobs|
    ensures var es := [Step.RunJobs(now, t', jobs)] + seq(n, _ => Dispatch);
      CanAll(s, es) && DoAll(s, es).rows == DispatchAll(s.rows, Uuids(jobs), n) && DoAll(s, es).sched.tree == t'
  {
    var es := [Step.RunJobs(now, t', jobs)] + seq(n, _ => Dispatch);
    assert es[1..] == seq(n, _ => Dispatch);
    DispatchSteps(Do(s, es[0]), n);
  }

  // A notification about a job: the scheduler is told of its row, or forgets it.
  method ProcessNotification(manager: ChannelManager, dbName: string, table: JobTable, data: map<Uuid, JobData>, uuid: Uuid)
    returns (ok: bool, job: ChannelJob?)
    requires manager.Valid() && Closed(manager.View().tree) && manager.channels.Keys == manager.View().tree.Keys
    requires uuid in table.rows ==> uuid in data && data[uuid].channel in manager.channels
    modifies manager`jobsByUuid, manager`forest, manager.forest.channels`running, manager.forest.channels`failed,
      manager.forest.heaps
    ensures manager.Valid()
    ensures manager.forest.channels == old(manager.forest.channels) && manager.forest.heaps == old(manager.forest.heaps)
    ensures uuid !in table.rows ==> ok && manager.View() == Forget(old(manager.View()), uuid)
    ensures uuid in table.rows && ok ==> job != null && job.uuid == uuid && FromData(job, dbName, data[uuid])
    ensures uuid in table.rows && ok ==>
      manager.View() == Notify(old(manager.View()), job, data[uuid].eta, table.rows[uuid].state)
    ensures uuid in table.rows && uuid !in old(manager.jobsByUuid) ==> ok
    ensures !ok ==> manager.View() == old(manager.View())
  {
    hide *;
    if uuid !in table.rows {
      manager.RemoveJob(uuid);
      return true, null;
    }
    var d := data[uuid];
    ok, job := manager.Notify(dbName, d.channel, uuid, d.seqNo, d.dateCreated, d.priority, d.eta,
      Present(table.rows[uuid].state));
    if ok {
      Described(job, dbName, d, uuid);
    }
  }

  lemma Described(job: ChannelJob, dbName: string, d: JobData, uuid: Uuid)
    requires Describes(job, dbName, d.channel, uuid, d.seqNo, d.dateCreated, d.priority)
    ensures job.uuid == uuid && FromData(job, dbName, d)
  {
  }

  predicate NotDone(state: JobState) {
    !state.Done? && !state.Cancelled?
  }

  // The notices list jobs of the table that are not done, each once and with its state, and all
  // but those that are to come.
  ghost predicate Listed(notices: seq<Notice>, rows: Rows, rest: set<Uuid>) {
    && EachOnce(notices)
    && (forall i :: 0 <= i < |notices| ==>
        && notices[i].job.uuid in rows && notices[i].job.uuid !in rest
        && notices[i].state == rows[notices[i].job.uuid].state && NotDone(notices[i].state))
    && (forall u :: u in rows && NotDone(rows[u].state) && u !in rest ==> Notices(notices, u))
  }

  // The notices are about jobs with these data.
  ghost predicate Matched(notices: seq<Notice>, dbName: string, data: map<Uuid, JobData>) {
    forall i :: 0 <= i < |notices| ==> MatchedOne(notices[i], dbName, data)
  }

  ghost predicate MatchedOne(d: Notice, dbName: string, data: map<Uuid, JobData>) {
    d.job.uuid in data && FromData(d.job, dbName, data[d.job.uuid]) && d.eta == data[d.job.uuid].eta
  }

  // What the scheduler knows of a stored job: nothing if it is done or was cancelled, and
  // otherwise an object made from its data, which is where the state of the job puts it.
  ghost predicate Known(s: Sched, u: Uuid, state: JobState, dbName: string, d: JobData) {
    if state.Done? || state.Cancelled? then u !in s.byUuid
    else u in s.byUuid && s.byUuid[u].uuid == u && FromData(s.byUuid[u], dbName, d) && Placed(s, s.byUuid[u], d.eta, state)
  }

  // The scheduler was notified of what is listed, and knows only that.
  ghost predicate Told(s0: Sched, notices: seq<Notice>, s: Sched) {
    && Channelled(s0, notices) && s == NotifyAll(s0, notices)
    && forall u :: u in s.byUuid ==> Notices(notices, u)
  }

  lemma ToldMore(s0: Sched, notices: seq<Notice>, s: Sched, d: Notice)
    requires Told(s0, notices, s) && d.job.channel in s.tree
    ensures SchedOk(s) && Closed(s.tree) && Told(s0, notices + [d], Notify(s, d.job, d.eta, d.state))
  {
    NotifyMore(s0, notices, d);
    NotifyOk(s, d.job, d.eta, d.state);
    hide Notify, NotifyAll, Notices, SchedOk, Channelled;
    forall u ensures Notices(notices + [d], u) <==> Notices(notices, u) || u == d.job.uuid {
      NoticesMore(notices, d, u);
    }
  }

  lemma ListedMore(notices: seq<Notice>, rows: Rows, rest: set<Uuid>, d: Notice)
    requires Listed(notices, rows, rest) && d.job.uuid in rest && d.job.uuid in rows && d.state == rows[d.job.uuid].state
    requires NotDone(d.state)
    ensures Listed(notices + [d], rows, rest - {d.job.uuid})
  {
    hide Notices, NotDone;
    forall u ensures Notices(notices + [d], u) <==> Notices(notices, u) || u == d.job.uuid {
      NoticesMore(notices, d, u);
    }
  }

  method TellOne(manager: ChannelManager, dbName: string, table: JobTable, data: map<Uuid, JobData>, uuid: Uuid,
                 ghost s0: Sched, ghost notices: seq<Notice>, ghost rest: set<Uuid>) returns (ghost d: Notice)
    requires manager.Valid() && Root in manager.View().tree
    requires uuid in table.rows && uuid in data && data[uuid].channel in manager.channels && uuid in rest
    requires NotDone(table.rows[uuid].state)
    requires Listed(notices, table.rows, rest) && Told(s0, notices, manager.View()) && Matched(notices, dbName, data)
    modifies manager`jobsByUuid, manager`forest, manager.forest.channels`running, manager.forest.channels`failed,
      manager.forest.heaps
    ensures manager.Valid() && Root in manager.View().tree
    ensures manager.forest.channels == old(manager.forest.channels) && manager.forest.heaps == old(manager.forest.heaps)
    ensures Listed(notices + [d], table.rows, rest - {uuid}) && Told(s0, notices + [d], manager.View())
    ensures Matched(notices + [d], dbName, data)
  {
    hide Ok, SchedOk, TreeOf, Closed, Listed, Told, Notify, Forget, Known;
    ghost var s := manager.View();
    Ready(manager, data[uuid].channel, s0, notices, rest, table.rows);
    var ok, job := ProcessNotification(manager, dbName, table, data, uuid);
    d := Notice(job, data[uuid].eta, table.rows[uuid].state);
    ToldMore(s0, notices, s, d);
    ListedMore(notices, table.rows, rest, d);
    ToldRoot(s0, notices + [d], manager.View());
  }

  lemma ToldRoot(s0: Sched, notices: seq<Notice>, s: Sched)
    requires Told(s0, notices, s)
    ensures Root in s.tree
  {
  }

  // At the start the scheduler is told of all jobs that are not done, each once.
  method InitializeDatabase(manager: ChannelManager, dbName: string, table: JobTable, data: map<Uuid, JobData>)
    returns (ghost notices: seq<Notice>)
    requires manager.Valid() && manager.jobsByUuid == map[] && Root in manager.View().tree
    requires forall u :: u in table.rows ==> u in data && data[u].channel in manager.channels
    modifies manager`jobsByUuid, manager`forest, manager.forest.channels`running, manager.forest.channels`failed,
      manager.forest.heaps
    ensures manager.Valid() && Root in manager.View().tree
    ensures Listed(notices, table.rows, {}) && Told(old(manager.View()), notices, manager.View())
    ensures Running(manager.View()) == ActiveJobs(table.rows)
    ensures forall u :: u in table.rows ==> Known(manager.View(), u, table.rows[u].state, dbName, data[u])
  {
    hide Ok, SchedOk, TreeOf, Closed, Listed, Told, Running, ActiveJobs, NotDone, MatchedOne, Known;
    manager.Parts();
    manager.RootReady();
    var rest := set u | u in table.rows && NotDone(table.rows[u].state);
    ghost var s0 := manager.View();
    notices := [];
    NothingTold(s0, table.rows, rest);
    while rest != {}
      invariant manager.Valid() && Root in manager.View().tree
      invariant rest <= table.rows.Keys && Listed(notices, table.rows, rest) && Told(s0, notices, manager.View())
      invariant Matched(notices, dbName, data) && forall u :: u in rest ==> NotDone(table.rows[u].state)
      invariant manager.forest.channels == old(manager.forest.channels) && manager.forest.heaps == old(manager.forest.heaps)
      decreases rest
    {
      var u :| u in rest;
      ghost var d := TellOne(manager, dbName, table, data, u, s0, notices, rest);
      notices := notices + [d];
      rest := rest - {u};
    }
    AllTold(s0, notices, manager.View(), table.rows);
    AllKnown(s0, notices, manager.View(), table.rows, dbName, data);
  }

  lemma AllKnown(s0: Sched, notices: seq<Notice>, s: Sched, rows: Rows, dbName: string, data: map<Uuid, JobData>)
    requires Listed(notices, rows, {}) && Told(s0, notices, s) && Matched(notices, dbName, data) && s0.byUuid == map[]
    requires forall u :: u in rows ==> u in data
    ensures forall u :: u in rows ==> Known(s, u, rows[u].state, dbName, data[u])
  {
    assert forall v :: v in s.byUuid ==> Notices(notices, v);
    ListedParts(s0, notices, s, rows);
    NotifiedPlaces(s0, notices);
    hide *;
    forall u | u in rows ensures Known(s, u, rows[u].state, dbName, data[u]) {
      KnownOne(s, notices, rows, dbName, data, u);
    }
  }

  lemma ListedParts(s0: Sched, notices: seq<Notice>, s: Sched, rows: Rows)
    requires Listed(notices, rows, {}) && Told(s0, notices, s)
    ensures Channelled(s0, notices) && EachOnce(notices) && s == NotifyAll(s0, notices)
  {
  }

  lemma KnownOne(s: Sched, notices: seq<Notice>, rows: Rows, dbName: string, data: map<Uuid, JobData>, u: Uuid)
    requires Listed(notices, rows, {}) && Matched(notices, dbName, data) && AllPlaced(s, notices)
    requires forall v :: v in s.byUuid ==> Notices(notices, v)
    requires u in rows && u in data
    ensures Known(s, u, rows[u].state, dbName, data[u])
  {
    hide Placed, MatchedOne;
    if i :| 0 <= i < |notices| && notices[i].job.uuid == u {
      KnownBy(s, notices[i], dbName, data, rows);
    } else {
      assert !Notices(notices, u);
    }
  }

  lemma KnownBy(s: Sched, d: Notice, dbName: string, data: map<Uuid, JobData>, rows: Rows)
    requires MatchedOne(d, dbName, data) && Placed(s, d.job, d.eta, d.state)
    requires d.job.uuid in rows && d.state == rows[d.job.uuid].state
    requires !d.state.Done? && !d.state.Cancelled?
    ensures Known(s, d.job.uuid, rows[d.job.uuid].state, dbName, data[d.job.uuid])
  {
    hide PlacedIn;
  }

  lemma NothingTold(s: Sched, rows: Rows, rest: set<Uuid>)
    requires SchedOk(s) && Root in s.tree && s.byUuid == map[] && rest == set u | u in rows && NotDone(rows[u].state)
    ensures Listed([], rows, rest) && Told(s, [], s)
  {
  }

  lemma AllTold(s0: Sched, notices: seq<Notice>, s: Sched, rows: Rows)
    requires Listed(notices, rows, {}) && Told(s0, notices, s) && s0.byUuid == map[] && Root in s.tree
    ensures Running(s) == ActiveJobs(rows)
  {
    ListedFromTable(notices, rows);
    RunningAreActive(s0, notices, rows);
  }

  lemma Ready(manager: ChannelManager, n: ChannelPath, s0: Sched, notices: seq<Notice>, rest: set<Uuid>, rows: Rows)
    requires manager.Valid() && n in manager.channels
    requires Root in manager.View().tree && Listed(notices, rows, rest) && Told(s0, notices, manager.View())
    ensures SchedOk(manager.View()) && Closed(manager.View().tree)
    ensures manager.View().tree.Keys == manager.channels.Keys && manager.jobsByUuid.Keys !! rest
  {
    manager.ChannelOf(n);
    forall u | u in manager.jobsByUuid ensures u !in rest {
      assert Notices(notices, u);
    }
  }

  lemma ListedFromTable(notices: seq<Notice>, rows: Rows)
    requires Listed(notices, rows, {})
    ensures FromTable(notices, rows)
  {
  }
}
