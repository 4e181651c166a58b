// The start of the runner: what it finds in the table is made known to its empty scheduler, which
// then counts exactly the jobs that are enqueued or started as running.
module RunnerStart {
  import opened ChannelJobs
  import opened ChannelTree
  import opened JobStates
  import opened JobRows
  import opened Scheduler
  import opened SchedulerEffects
  import opened SchedulerPlacement
  import opened RunnerProtocol
  import opened ProtocolSafety

  datatype Notice = Notice(job: ChannelJob, eta: Time, state: JobState)

  ghost predicate Channelled(s: Sched, notices: seq<Notice>) {
    SchedOk(s) && Root in s.tree && forall i :: 0 <= i < |notices| ==> notices[i].job.channel in s.tree
  }

  // The scheduler after it was notified of jobs, one after the other.
  ghost function NotifyAll(s: Sched, notices: seq<Notice>): (s': Sched)
    requires Channelled(s, notices)
    ensures SchedOk(s') && s'.tree.Keys == s.tree.Keys
    decreases |notices|
  {
    if notices == [] then s
    else
      var n := |notices| - 1;
      var before := NotifyAll(s, notices[..n]);
      NotifyOk(before, notices[n].job, notices[n].eta, notices[n].state);
      Notify(before, notices[n].job, notices[n].eta, notices[n].state)
  }

  lemma NotifyMore(s: Sched, notices: seq<Notice>, d: Notice)
    requires Channelled(s, notices) && d.job.channel in s.tree
    ensures Channelled(s, notices + [d]) && Closed(NotifyAll(s, notices).tree)
    ensures NotifyAll(s, notices + [d]) == Notify(NotifyAll(s, notices), d.job, d.eta, d.state)
  {
    assert (notices + [d])[..|notices|] == notices;
  }

  ghost predicate Notices(notices: seq<Notice>, u: Uuid) {
    exists i :: 0 <= i < |notices| && notices[i].job.uuid == u
  }

  ghost predicate NoticesActive(notices: seq<Notice>, u: Uuid) {
    exists i :: 0 <= i < |notices| && notices[i].job.uuid == u && Active(notices[i].state)
  }

  ghost predicate EachOnce(notices: seq<Notice>) {
    forall i, k :: 0 <= i < k < |notices| ==> notices[i].job.uuid != notices[k].job.uuid
  }

  lemma NoticesMore(notices: seq<Notice>, d: Notice, u: Uuid)
    ensures Notices(notices + [d], u) <==> Notices(notices, u) || u == d.job.uuid
    ensures NoticesActive(notices + [d], u) <==> NoticesActive(notices, u) || (u == d.job.uuid && Active(d.state))
  {
    var more := notices + [d];
    assert more[|notices|] == d;
    if i :| 0 <= i < |notices| && notices[i].job.uuid == u { assert more[i] == notices[i]; }
    if i :| 0 <= i < |notices| && notices[i].job.uuid == u && Active(notices[i].state) { assert more[i] == notices[i]; }
  }

  // A job that is not known yet counts as running exactly if it is enqueued or started.
  lemma NewNotice(s: Sched, d: Notice)
    requires SchedOk(s) && Root in s.tree && d.job.channel in s.tree && d.job.uuid !in s.byUuid
    ensures Closed(s.tree)
    ensures var s' := Notify(s, d.job, d.eta, d.state);
      && Root in s'.tree && s'.byUuid.Keys == s.byUuid.Keys + {d.job.uuid}
      && (forall u :: u in Running(s') <==> u in Running(s) || (u == d.job.uuid && Active(d.state)))
  {
    hide *;
    RootIn(s);
    NotifyOk(s, d.job, d.eta, d.state);
    NotifyRunning(s, d.job, d.eta, d.state);
    UnregisteredHeldNowhere(s, d.job.uuid);
    NotHeld(s, d.job.uuid);
    RunningIsRegistered(s, d.job.uuid);
  }

  lemma NotHeld(s: Sched, u: Uuid)
    requires HeldNowhere(s.tree, u)
    ensures !Holds(s, u)
  {
  }

  // Notified once of each job, a scheduler that knew none counts exactly those that are enqueued
  // or started as running.
  lemma {:induction false} Initialised(s: Sched, notices: seq<Notice>)
    requires Channelled(s, notices) && s.byUuid == map[] && EachOnce(notices)
    ensures Root in NotifyAll(s, notices).tree
    ensures forall u :: u in NotifyAll(s, notices).byUuid <==> Notices(notices, u)
    ensures forall u :: u in Running(NotifyAll(s, notices)) <==> NoticesActive(notices, u)
    decreases |notices|
  {
    hide *;
    ChannelledParts(s, notices);
    if notices == [] {
      NoNotices(s);
    } else {
      var n := |notices| - 1;
      var before, d := notices[..n], notices[n];
      EachOnceParts(notices);
      Initialised(s, before);
      assert before + [d] == notices;
      NotifyMore(s, before, d);
      NewNotice(NotifyAll(s, before), d);
      forall u
        ensures Notices(notices, u) <==> Notices(before, u) || u == d.job.uuid
        ensures NoticesActive(notices, u) <==> NoticesActive(before, u) || (u == d.job.uuid && Active(d.state))
      {
        NoticesMore(before, d, u);
      }
    }
  }

  // Every job is where the state in the notice puts it, by the object of the notice.
  ghost predicate AllPlaced(s: Sched, notices: seq<Notice>) {
    forall i :: 0 <= i < |notices| ==> Placed(s, notices[i].job, notices[i].eta, notices[i].state)
  }

  lemma {:induction false} NotifiedPlaces(s: Sched, notices: seq<Notice>)
    requires Channelled(s, notices) && s.byUuid == map[] && EachOnce(notices)
    ensures AllPlaced(NotifyAll(s, notices), notices)
    decreases |notices|
  {
    hide *;
    ChannelledParts(s, notices);
    if notices == [] {
      NothingPlaced(NotifyAll(s, []));
    } else {
      var n := |notices| - 1;
      var before, d := notices[..n], notices[n];
      EachOnceParts(notices);
      Initialised(s, before);
      NotifiedPlaces(s, before);
      assert before + [d] == notices;
      NotifyMore(s, before, d);
      NotifyPlaces(NotifyAll(s, before), d.job, d.eta, d.state);
      MorePlaced(NotifyAll(s, before), before, d);
    }
  }

  lemma NothingPlaced(s: Sched)
    ensures AllPlaced(s, [])
  {
  }

  lemma MorePlaced(s: Sched, notices: seq<Notice>, d: Notice)
    requires SchedOk(s) && Closed(s.tree) && d.job.channel in s.tree
    requires AllPlaced(s, notices) && !Notices(notices, d.job.uuid)
    requires Placed(Notify(s, d.job, d.eta, d.state), d.job, d.eta, d.state)
    ensures AllPlaced(Notify(s, d.job, d.eta, d.state), notices + [d])
  {
    hide SchedOk, Notify, Placed;
    forall i | 0 <= i < |notices| ensures Placed(Notify(s, d.job, d.eta, d.state), notices[i].job, notices[i].eta, notices[i].state) {
      StaysPlaced(s, d.job, d.eta, d.state, notices[i].job, notices[i].eta, notices[i].state);
    }
  }

  lemma ChannelledParts(s: Sched, notices: seq<Notice>)
    requires Channelled(s, notices)
    ensures SchedOk(s) && Root in s.tree && (forall i :: 0 <= i < |notices| ==> notices[i].job.channel in s.tree)
    ensures notices != [] ==> Channelled(s, notices[..|notices| - 1])
  {
  }

  lemma EachOnceParts(notices: seq<Notice>)
    requires EachOnce(notices) && notices != []
    ensures EachOnce(notices[..|notices| - 1]) && !Notices(notices[..|notices| - 1], notices[|notices| - 1].job.uuid)
  {
  }

  lemma NoNotices(s: Sched)
    requires Channelled(s, []) && s.byUuid == map[]
    ensures Root in s.tree && NotifyAll(s, []) == s
    ensures forall u :: u !in Running(s) && !Notices([], u) && !NoticesActive([], u)
  {
    forall u ensures u !in Running(s) { RunningIsRegistered(s, u); }
  }

  // ---------- Runs after the start ----------

  // Notices of rows of the table, among them all that are enqueued or started.
  ghost predicate FromTable(notices: seq<Notice>, rows: Rows) {
    && EachOnce(notices)
    && (forall i :: 0 <= i < |notices| ==>
        notices[i].job.uuid in rows && notices[i].state == rows[notices[i].job.uuid].state)
    && (forall u :: ActiveIn(rows, u) ==> Notices(notices, u))
  }

  lemma RunningAreActive(empty: Sched, notices: seq<Notice>, rows: Rows)
    requires Channelled(empty, notices) && empty.byUuid == map[] && FromTable(notices, rows)
    ensures Root in NotifyAll(empty, notices).tree && Running(NotifyAll(empty, notices)) == ActiveJobs(rows)
  {
    Initialised(empty, notices);
    hide NotifyAll, Running, SchedOk, Active;
    forall u ensures NoticesActive(notices, u) <==> u in ActiveJobs(rows) {
      if ActiveIn(rows, u) {
        var i :| 0 <= i < |notices| && notices[i].job.uuid == u;
        assert NoticesActive(notices, u);
      }
    }
  }

  // A runner that has just started, whatever workers are doing.
  ghost predicate JustStarted(s: State, empty: Sched, notices: seq<Notice>) {
    && Channelled(empty, notices) && empty.byUuid == map[] && FromTable(notices, s.rows)
    && s.sched == NotifyAll(empty, notices) && TableOk(s) && RunnerFree(s)
  }

  // The invariant of the protocol holds after the start exactly if no more jobs are enqueued or
  // started than the root channel has capacity for.
  lemma StartIsSafe(s: State, empty: Sched, notices: seq<Notice>)
    requires JustStarted(s, empty, notices)
    ensures Root in s.sched.tree
    ensures Safe(s) <==> (s.sched.tree[Root].capacity > 0 ==> |ActiveJobs(s.rows)| <= s.sched.tree[Root].capacity)
  {
    hide *;
    StartParts(s, empty, notices);
    RunningAreActive(empty, notices, s.rows);
    if Safe(s) {
      SafeIsWithin(s);
    }
    if s.sched.tree[Root].capacity > 0 ==> |ActiveJobs(s.rows)| <= s.sched.tree[Root].capacity {
      WithinIsSafe(s);
    }
  }

  lemma StartParts(s: State, empty: Sched, notices: seq<Notice>)
    requires JustStarted(s, empty, notices)
    ensures Channelled(empty, notices) && empty.byUuid == map[] && FromTable(notices, s.rows)
    ensures s.sched == NotifyAll(empty, notices) && TableOk(s) && RunnerFree(s) && SchedOk(s.sched)
  {
    hide SchedOk, NotifyAll, TableOk, FromTable;
  }

  lemma SafeIsWithin(s: State)
    requires Safe(s) && Root in s.sched.tree && Running(s.sched) == ActiveJobs(s.rows)
    ensures s.sched.tree[Root].capacity > 0 ==> |ActiveJobs(s.rows)| <= s.sched.tree[Root].capacity
  {
    hide SchedOk, Running, ActiveJobs, TableOk, Covered, OutboxOk, FetchedOk;
  }

  lemma WithinIsSafe(s: State)
    requires SchedOk(s.sched) && Root in s.sched.tree && TableOk(s) && RunnerFree(s) && Running(s.sched) == ActiveJobs(s.rows)
    requires s.sched.tree[Root].capacity > 0 ==> |ActiveJobs(s.rows)| <= s.sched.tree[Root].capacity
    ensures Safe(s)
  {
    hide SchedOk, Running, TableOk;
    forall u | ActiveIn(s.rows, u) ensures u in Running(s.sched) {
      assert u in ActiveJobs(s.rows);
    }
  }

  // So the capacity holds in every state after the start.
  lemma CapacityAfterStart(ss: seq<State>, es: seq<Step>, i: nat, empty: Sched, notices: seq<Notice>)
    requires IsRun(ss, es) && i < |ss| && JustStarted(ss[0], empty, notices)
    requires Root in ss[0].sched.tree && 0 < ss[0].sched.tree[Root].capacity
    requires |ActiveJobs(ss[0].rows)| <= ss[0].sched.tree[Root].capacity
    ensures |ActiveJobs(ss[i].rows)| <= ss[0].sched.tree[Root].capacity
  {
    StartIsSafe(ss[0], empty, notices);
    CapacityHolds(ss, es, i);
  }
}
