// The interface of the scheduler: it finds the channel and the job object of a notification
// and applies the state transition.
module ChannelManagers {
  import opened ChannelJobs
  import opened PriorityQueues
  import opened ChannelTree
  import opened ChannelTurn
  import opened Channels
  import opened JobStates
  import opened Scheduler

  ghost function WithJob(f: Forest, job: ChannelJob): Forest {
    f.(jobs := f.jobs + {job})
  }

  lemma MoreJobsAt(f: Forest, job: ChannelJob, n: ChannelPath)
    requires n in f.at && NodeOk(f, n)
    ensures NodeOk(WithJob(f, job), n) && ViewAt(WithJob(f, job), n) == ViewAt(f, n)
    ensures ChildrenOk(f, n) ==> ChildrenOk(WithJob(f, job), n)
  {
    hide PriorityQueue.Valid, ChannelQueue.Valid;
  }

  lemma MoreJobs(f: Forest, job: ChannelJob)
    requires Ok(f)
    ensures Ok(WithJob(f, job)) && TreeOf(WithJob(f, job)) == TreeOf(f)
  {
    hide NodeOk, ChildrenOk, ViewAt;
    var f' := WithJob(f, job);
    forall n | n in f.at
      ensures NodeOk(f', n) && ViewAt(f', n) == ViewAt(f, n) && ChildrenOk(f', n)
    {
      assert NodeOk(f, n) && ChildrenOk(f, n);
      MoreJobsAt(f, job, n);
    }
    assert Apart(f');
  }

  // ---------- New channels ----------

  ghost function WithChannel(f: Forest, c: Channel): Forest {
    Forest(f.at[c.path := c], f.channels + {c}, f.queues + {c.queue},
           f.heaps + {c.queue.queue, c.queue.etaQueue}, f.jobs)
  }

  // The forest is in order but for the new channel c at the end of its parent's children.
  ghost predicate AllButNew(f: Forest, c: Channel)
    reads f.channels, f.queues, f.heaps, f.jobs, c, f.at.Values
  {
    && Root in f.at && Apart(f) && c.path !in f.at && c.path.Sub? && c.path.parent in f.at
    && (forall n {:trigger NodeOk(f, n)} :: n in f.at ==> NodeOk(f, n))
    && (forall n {:trigger ChildrenOk(f, n)} :: n in f.at && n != c.path.parent ==> ChildrenOk(f, n))
    && NewIsLast(f, c.path.parent, f.at[c.path.parent].children, c)
    && c.parent == f.at[c.path.parent] && c.children == []
    && c.queue !in f.queues && c.queue.queue !in f.heaps && c.queue.etaQueue !in f.heaps
  }

  ghost predicate NewIsLast(f: Forest, n: ChannelPath, children: seq<Channel>, c: Channel) {
    |children| > 0 && children[|children| - 1] == c && ChildrenListed(f, n, children[..|children| - 1])
  }

  lemma GrownApart(f: Forest, c: Channel)
    requires AllButNew(f, c)
    ensures Apart(WithChannel(f, c))
  {
    var f' := WithChannel(f, c);
    forall n, m | n in f'.at && m in f'.at && n != m
      ensures f'.at[n].queue != f'.at[m].queue && f'.at[n].Heaps() !! f'.at[m].Heaps()
    {
      if n in f.at { assert NodeOk(f, n); }
      if m in f.at { assert NodeOk(f, m); }
    }
  }

  lemma GrownNodes(f: Forest, c: Channel, m: ChannelPath)
    requires AllButNew(f, c) && m in f.at
    ensures NodeOk(WithChannel(f, c), m) && ViewAt(WithChannel(f, c), m) == ViewAt(f, m)
  {
    assert NodeOk(f, m);
  }

  lemma ListedMore(f: Forest, c: Channel, n: ChannelPath, cs: seq<Channel>)
    requires ChildrenListed(f, n, cs) && c.path !in f.at && IsChild(n, c.path)
    ensures ChildrenListed(WithChannel(f, c), n, cs + [c])
  {
    var f', all := WithChannel(f, c), cs + [c];
    forall k | k in f'.at && IsChild(n, k) ensures f'.at[k] in all && f'.at[k].path == k {
      if k != c.path { assert f.at[k] in cs; } else { assert all[|cs|] == c; }
    }
  }

  lemma ListedSame(f: Forest, c: Channel, n: ChannelPath, cs: seq<Channel>)
    requires ChildrenListed(f, n, cs) && c.path !in f.at && !IsChild(n, c.path)
    ensures ChildrenListed(WithChannel(f, c), n, cs)
  {
  }

  lemma GrownNodeIn(f: Forest, c: Channel, d: Channel)
    requires NodeIn(f, d)
    ensures NodeIn(WithChannel(f, c), d)
  {
  }

  lemma GrownChildren(f: Forest, c: Channel, m: ChannelPath)
    requires AllButNew(f, c) && m in f.at
    ensures ChildrenOk(WithChannel(f, c), m)
  {
    assert NodeOk(f, m) && (m != c.path.parent ==> ChildrenOk(f, m));
    NodeOkIn(f, m);
    hide ChildrenListed, NodeIn, NodeOk, Apart;
    GrownNodeIn(f, c, f.at[m]);
    var children := f.at[m].children;
    if m == c.path.parent {
      var cs := children[..|children| - 1];
      assert children == cs + [c];
      ListedMore(f, c, m, cs);
    } else {
      ListedSame(f, c, m, children);
    }
  }

  lemma LeafChildren(f: Forest, c: Channel)
    requires AllButNew(f, c) && NodeIn(WithChannel(f, c), c)
    ensures ChildrenOk(WithChannel(f, c), c.path)
  {
    var f' := WithChannel(f, c);
    forall k | k in f'.at ensures !IsChild(c.path, k) {
      if k in f.at { assert NodeOk(f, k); }
    }
  }

  lemma GrownOk(f: Forest, c: Channel)
    requires AllButNew(f, c) && NodeOk(WithChannel(f, c), c.path)
    ensures Ok(WithChannel(f, c)) && ViewAt(WithChannel(f, c), c.path) == c.View()
    ensures TreeOf(WithChannel(f, c)).Keys == f.at.Keys + {c.path}
    ensures TreeOf(WithChannel(f, c))[c.path] == c.View()
    ensures forall m :: m in f.at ==> NodeOk(f, m) && TreeOf(WithChannel(f, c))[m] == ViewAt(f, m)
  {
    hide NodeOk, ChildrenOk, Apart;
    var f' := WithChannel(f, c);
    GrownApart(f, c);
    forall m | m in f.at ensures NodeOk(f', m) && ViewAt(f', m) == ViewAt(f, m) && ChildrenOk(f', m) {
      GrownNodes(f, c, m);
      GrownChildren(f, c, m);
    }
    NodeOkIn(f', c.path);
    LeafChildren(f, c);
  }

  lemma NodeOkIn(f: Forest, n: ChannelPath)
    requires n in f.at && NodeOk(f, n)
    ensures NodeIn(f, f.at[n])
  {
  }

  lemma WithChannelAt(f: Forest, c: Channel)
    ensures WithChannel(f, c).at == f.at[c.path := c] && WithChannel(f, c).jobs == f.jobs
  {
  }

  // Nothing has changed but the children of channel n.
  twostate predicate OnlyChildrenOf(f: Forest, n: ChannelPath)
    requires n in f.at
    reads f.channels, f.queues, f.heaps, f.jobs
  {
    && unchanged(f.queues, f.heaps, f.jobs)
    && unchanged(f.channels`running, f.channels`failed, f.channels`pauseUntil, f.channels`capacity, f.channels`throttle)
    && (forall d :: d in f.channels && d != f.at[n] ==> d.children == old(d.children))
  }

  twostate lemma GrowingKeeps(f: Forest, new n: ChannelPath, new m: ChannelPath)
    requires old(Ok(f)) && n in f.at && m in f.at && OnlyChildrenOf(f, n)
    ensures NodeOk(f, m) && ViewAt(f, m) == old(ViewAt(f, m)) && (m != n ==> ChildrenOk(f, m))
  {
    assert old(NodeOk(f, m)) && old(ChildrenOk(f, m)) && old(NodeOk(f, n));
  }

  twostate lemma GrowthReady(f: Forest, new c: Channel, new n: ChannelPath)
    requires old(Ok(f)) && c.path !in f.at && c.path.Sub? && c.path.parent == n && n in f.at && c.parent == f.at[n]
    requires c.queue !in f.queues && c.queue.queue !in f.heaps && c.queue.etaQueue !in f.heaps && c.children == []
    requires OnlyChildrenOf(f, n) && f.at[n].children == old(f.at[n].children) + [c]
    ensures AllButNew(f, c) && forall m :: m in f.at ==> NodeOk(f, m) && ViewAt(f, m) == old(TreeOf(f)[m])
  {
    hide NodeOk, ChildrenOk, OnlyChildrenOf, Apart, ChildrenListed, ViewAt;
    forall m | m in f.at
      ensures NodeOk(f, m) && ViewAt(f, m) == old(TreeOf(f)[m]) && (m != n ==> ChildrenOk(f, m))
    {
      GrowingKeeps(f, n, m);
      assert old(TreeOf(f)[m] == ViewAt(f, m));
    }
    OldLinks(f, n);
    assert f.at[n].children[..|f.at[n].children| - 1] == old(f.at[n].children);
  }

  twostate lemma OldLinks(f: Forest, new n: ChannelPath)
    requires old(Ok(f)) && n in f.at
    ensures old(ChildrenListed(f, n, f.at[n].children))
  {
    assert old(ChildrenOk(f, n));
  }

  // The new channel joins the children of its parent.
  method Grow(ghost f: Forest, path: ChannelPath, parent: Channel, capacity: int) returns (c: Channel)
    requires Ok(f) && path !in f.at && path.Sub? && path.parent in f.at && parent == f.at[path.parent]
    modifies parent`children
    ensures fresh(c) && c.path == path && Ok(WithChannel(f, c))
    ensures TreeOf(WithChannel(f, c)) == old(TreeOf(f))[path := EmptyChan(capacity)]
  {
    hide Ok, NodeOk, TreeOf, AllButNew, ChildrenListed, ViewAt;
    Links(f, path.parent);
    ghost var t := TreeOf(f);
    c := new Channel(path, parent, capacity);
    GrowthReady(f, c, path.parent);
    assert NodeOk(WithChannel(f, c), path) by { NewNodeOk(f, c); }
    GrownOk(f, c);
  }

  lemma NewNodeOk(f: Forest, c: Channel)
    requires c.path.Sub? && c.path.parent in f.at && c.parent == f.at[c.path.parent] && c.path !in f.at
    requires c.queue.queue.heap == c.queue.etaQueue.heap == [] && c.queue.queue.known == c.queue.etaQueue.known == {}
    requires c.queue.Valid(c.path)
    ensures NodeOk(WithChannel(f, c), c.path)
  {
  }

  class ChannelManager {
    var channels: map<ChannelPath, Channel>
    var jobsByUuid: map<Uuid, ChannelJob>
    ghost var forest: Forest

    ghost function View(): Sched
      requires Ok(forest)
      reads this, forest.channels, forest.queues, forest.heaps, forest.jobs
    {
      Sched(TreeOf(forest), jobsByUuid)
    }

    ghost predicate Valid()
      reads this, forest.channels, forest.queues, forest.heaps, forest.jobs
    {
      && Ok(forest) && forest.at == channels && SchedOk(View())
      && (forall u :: u in jobsByUuid ==> jobsByUuid[u] in forest.jobs)
    }

    lemma Parts()
      requires Valid()
      ensures Ok(forest) && forest.at == channels && View() == Sched(TreeOf(forest), jobsByUuid) && SchedOk(View())
      ensures forall u :: u in jobsByUuid ==> jobsByUuid[u] in forest.jobs
    {
    }

    lemma Whole()
      requires Ok(forest) && forest.at == channels && SchedOk(Sched(TreeOf(forest), jobsByUuid))
      requires forall u :: u in jobsByUuid ==> jobsByUuid[u] in forest.jobs
      ensures Valid() && View() == Sched(TreeOf(forest), jobsByUuid)
    {
    }

    // The channel of a known job.
    lemma KnownChannel(uuid: Uuid)
      requires Valid() && uuid in jobsByUuid
      ensures jobsByUuid[uuid].uuid == uuid && jobsByUuid[uuid].channel in channels
      ensures Ok(forest) && jobsByUuid[uuid].channel in TreeOf(forest)
    {
    }

    lemma ChannelOf(n: ChannelPath)
      requires Ok(forest) && forest.at == channels && n in channels
      ensures channels[n].In(forest) && channels[n].path == n && channels[n] in forest.channels
      ensures TreeOf(forest).Keys == channels.Keys && Closed(TreeOf(forest))
    {
      Links(forest, n);
    }

    // A scheduler starts with an empty root channel of capacity 1.
    constructor ()
      ensures Valid() && fresh(forest.channels) && fresh(forest.queues) && fresh(forest.heaps)
      ensures View() == Sched(map[Root := EmptyChan(1)], map[])
    {
      var root := new Channel(Root, null, 1);
      channels, jobsByUuid := map[Root := root], map[];
      forest := Forest(map[Root := root], {root}, {root.queue}, {root.queue.queue, root.queue.etaQueue}, {});
      new;
      assert NodeOk(forest, Root);
      assert ChildrenOk(forest, Root);
      assert TreeOf(forest) == map[Root := ViewAt(forest, Root)];
      OneChannelOk(View());
    }

    // Creates a missing channel below an existing one.
    method AddChannel(parent: ChannelPath, name: string, capacity: int) returns (channel: Channel)
      requires Valid() && parent in channels && Sub(parent, name) !in channels
      modifies this`channels, this`forest, forest.channels`children
      ensures Valid() && fresh(channel) && forest == WithChannel(old(forest), channel)
      ensures channels == old(channels)[Sub(parent, name) := channel]
      ensures View() == old(View()).(tree := old(View()).tree[Sub(parent, name) := EmptyChan(capacity)])
    {
      hide *;
      Parts();
      ghost var s := View();
      ChannelOf(parent);
      AddChannelOk(s, Sub(parent, name), capacity);
      channel := Grow(forest, Sub(parent, name), channels[parent], capacity);
      channels := channels[Sub(parent, name) := channel];
      forest := WithChannel(forest, channel);
      WithChannelAt(old(forest), channel);
      Whole();
    }

    method RemoveJob(uuid: Uuid)
      requires Valid()
      modifies this`jobsByUuid, forest.channels`running, forest.channels`failed, forest.heaps
      ensures Valid() && jobsByUuid == old(jobsByUuid) - {uuid}
      ensures View() == Forget(old(View()), uuid)
    {
      hide *;
      Parts();
      ForgetOk(View(), uuid);
      ForgetIs(View(), uuid);
      if uuid in jobsByUuid {
        var job := jobsByUuid[uuid];
        KnownChannel(uuid);
        ChannelOf(job.channel);
        channels[job.channel].Remove(forest, job);
        jobsByUuid := jobsByUuid - {uuid};
        Whole();
      } else {
        assert jobsByUuid - {uuid} == jobsByUuid;
      }
    }

    // Applies the state of a stored job to its job object.
    method Apply(job: ChannelJob, state: JobState)
      requires Valid() && job.uuid in jobsByUuid && jobsByUuid[job.uuid] == job && job.channel in channels
      requires Closed(View().tree) && job.channel in View().tree
      modifies forest.channels`running, forest.channels`failed, forest.heaps
      ensures Valid() && View() == old(View()).(tree := Transition(old(View()).tree, job, old(job.eta), state))
    {
      hide *;
      Parts();
      ChannelOf(job.channel);
      TransitionOk(View(), job, job.eta, state);
      TransitionIs(TreeOf(forest), job, job.eta, state);
      var channel := channels[job.channel];
      if state.Done? {
        channel.Remove(forest, job);
      } else if state.Pending? {
        channel.SetPending(forest, job);
      } else if state.Enqueued? || state.Started? {
        channel.SetRunning(forest, job);
      } else if state.Failed? {
        channel.SetFailed(forest, job);
      }
      Whole();
    }

    // Registers a new job object, which replaces the one known by its uuid.
    method Renew(dbName: string, channel: ChannelPath, uuid: Uuid, seqNo: int, dateCreated: int,
                 priority: int, eta: Time)
      returns (job: ChannelJob)
      requires Valid() && channel in channels
      modifies this`jobsByUuid, this`forest, forest.channels`running, forest.channels`failed, forest.heaps
      ensures Valid() && fresh(job) && forest == WithJob(old(forest), job)
      ensures View() == Register(old(View()), job)
      ensures job.dbName == dbName && job.channel == channel && job.uuid == uuid
      ensures job.seqNo == seqNo && job.dateCreated == dateCreated && job.priority == priority && job.eta == eta
    {
      hide *;
      Parts();
      ChannelOf(channel);
      ghost var s := View();
      RemoveJob(uuid);
      job := new ChannelJob(dbName, channel, uuid, seqNo, dateCreated, priority, eta);
      RegisterIs(s, job);
      RegisterOk(s, job);
      Parts();
      AddJob(job);
    }

    // A new job object takes its place in the registry.
    method AddJob(job: ChannelJob)
      requires Valid() && SchedOk(View().(byUuid := jobsByUuid[job.uuid := job]))
      modifies this`jobsByUuid, this`forest
      ensures Valid() && forest == WithJob(old(forest), job)
      ensures View() == old(View()).(byUuid := old(View()).byUuid[job.uuid := job])
    {
      hide *;
      Parts();
      MoreJobs(forest, job);
      ForestWithJob(forest, job);
      forest := WithJob(forest, job);
      jobsByUuid := jobsByUuid[job.uuid := job];
      Whole();
    }

    // The object known by the uuid, or a new one if there is none or its properties have changed.
    method Lookup(dbName: string, channel: ChannelPath, uuid: Uuid, seqNo: int, dateCreated: int,
                  priority: int, eta: Time)
      returns (job: ChannelJob)
      requires Valid() && channel in channels && (uuid in jobsByUuid ==> SameOrigin(jobsByUuid[uuid], dbName, dateCreated))
      modifies this`jobsByUuid, this`forest, forest.channels`running, forest.channels`failed, forest.heaps
      ensures Valid() && (forest == old(forest) || forest == WithJob(old(forest), job))
      ensures Describes(job, dbName, channel, uuid, seqNo, dateCreated, priority) && job.eta == eta
      ensures View() == Register(old(View()), job)
      ensures if uuid in old(jobsByUuid) && old(SameProperties(jobsByUuid[uuid], channel, seqNo, priority, eta))
        then job == old(jobsByUuid[uuid]) else fresh(job)
    {
      hide Ok, TreeOf, SchedOk, Register, Valid, View, Forget, Closed;
      if uuid in jobsByUuid && SameProperties(jobsByUuid[uuid], channel, seqNo, priority, eta) {
        job := jobsByUuid[uuid];
        Parts();
        KnownChannel(uuid);
        RegisterIs(View(), job);
      } else {
        job := Renew(dbName, channel, uuid, seqNo, dateCreated, priority, eta);
      }
    }

    // A notification with the data of a stored job. The database and the creation date of a job
    // are expected not to change.
    method Notify(dbName: string, channel: ChannelPath, uuid: Uuid, seqNo: int, dateCreated: int,
                  priority: int, eta: Time, notified: Notified)
      returns (ok: bool, job: ChannelJob?)
      requires Valid() && channel in channels && Closed(View().tree) && channel in View().tree
      modifies this`jobsByUuid, this`forest, forest.channels`running, forest.channels`failed, forest.heaps
      ensures Valid() && forest.channels == old(forest.channels) && forest.heaps == old(forest.heaps)
      ensures ok <==> uuid in old(jobsByUuid) ==>
        old(jobsByUuid)[uuid].dbName == dbName && old(jobsByUuid)[uuid].dateCreated == dateCreated
      ensures !ok ==> View() == old(View())
      ensures ok ==> job != null && job.eta == eta && Describes(job, dbName, channel, uuid, seqNo, dateCreated, priority)
      ensures ok ==> View() == Scheduler.Notify(old(View()), job, eta, if notified.Missing? then Done else notified.state)
      ensures ok ==>
        if uuid in old(jobsByUuid) && old(jobsByUuid[uuid].seqNo == seqNo && jobsByUuid[uuid].priority == priority
          && jobsByUuid[uuid].eta == eta && jobsByUuid[uuid].channel == channel)
        then job == old(jobsByUuid[uuid]) else fresh(job)
    {
      hide *;
      if uuid in jobsByUuid { SameMeans(jobsByUuid[uuid], dbName, dateCreated, channel, seqNo, priority, eta); }
      if uuid in jobsByUuid && !SameOrigin(jobsByUuid[uuid], dbName, dateCreated) {
        return false, null;
      }
      var state := StateOf(notified);
      StateMeans(notified);
      Parts();
      ghost var s := View();
      job := Lookup(dbName, channel, uuid, seqNo, dateCreated, priority, eta);
      ok := true;
      Parts();
      ForestWithJob(old(forest), job);
      Described(job, dbName, channel, uuid, seqNo, dateCreated, priority);
      Registered(s, View(), job);
      NotificationIs(s, job, eta, state);
      Apply(job, state);
    }

    method GetJobsToRun(now: Time) returns (jobs: seq<ChannelJob>)
      requires Valid() && Root in View().tree
      modifies forest.channels`running, forest.channels`pauseUntil, forest.heaps, forest.jobs`eta
      ensures Valid() && Turn(old(View()).tree, Root, now, View().tree, jobs)
      ensures View() == old(View()).(tree := View().tree)
    {
      hide *;
      Parts();
      RootReady();
      ghost var s := View();
      jobs := channels[Root].GetJobsToRun(forest, now);
      TurnOk(s, now, TreeOf(forest), jobs);
      Whole();
    }

    // The time at which the runner has to call again; 0 if it need not.
    method GetWakeupTime() returns (wakeup: Time)
      requires Valid() && Closed(View().tree)
      modifies forest.heaps
      ensures Valid() && View() == old(View())
      ensures Earliest(0.0, Wakeups(View().tree, Root), wakeup)
    {
      hide *;
      Parts();
      RootReady();
      wakeup := channels[Root].GetWakeupTime(forest, 0.0);
      Whole();
    }

    lemma RootReady()
      requires Valid()
      ensures Root in channels && channels[Root].In(forest) && channels[Root].path == Root
      ensures Ok(forest) && SoundFrom(TreeOf(forest), Root) && Closed(TreeOf(forest)) && Root in TreeOf(forest)
    {
      Links(forest, Root);
    }
  }

  lemma Registered(s: Sched, s': Sched, job: ChannelJob)
    requires SchedOk(s) && job.channel in s.tree && s' == Register(s, job)
    ensures SchedOk(s') && Closed(s'.tree) && s'.tree.Keys == s.tree.Keys
    ensures job.uuid in s'.byUuid && s'.byUuid[job.uuid] == job
  {
    RegisterOk(s, job);
  }

  lemma Described(job: ChannelJob, dbName: string, channel: ChannelPath, uuid: Uuid, seqNo: int, dateCreated: int,
                  priority: int)
    requires Describes(job, dbName, channel, uuid, seqNo, dateCreated, priority)
    ensures job.uuid == uuid && job.channel == channel
  {
  }

  lemma NotificationIs(s: Sched, job: ChannelJob, eta: Time, state: JobState)
    requires Closed(s.tree) && job.channel in s.tree
    requires Closed(Register(s, job).tree) && job.channel in Register(s, job).tree
    ensures Scheduler.Notify(s, job, eta, state) ==
      Register(s, job).(tree := Transition(Register(s, job).tree, job, eta, state))
  {
  }

  lemma ForestWithJob(f: Forest, job: ChannelJob)
    ensures WithJob(f, job).at == f.at && WithJob(f, job).jobs == f.jobs + {job}
    ensures WithJob(f, job).channels == f.channels && WithJob(f, job).heaps == f.heaps
    ensures WithJob(f, job).queues == f.queues
  {
  }

  predicate Describes(job: ChannelJob, dbName: string, channel: ChannelPath, uuid: Uuid, seqNo: int,
                      dateCreated: int, priority: int) {
    job.dbName == dbName && job.channel == channel && job.uuid == uuid && job.seqNo == seqNo &&
    job.dateCreated == dateCreated && job.priority == priority
  }

  predicate SameOrigin(job: ChannelJob, dbName: string, dateCreated: int) {
    job.dbName == dbName && job.dateCreated == dateCreated
  }

  // The properties that decide about the place of a job in the queues are those of the data.
  predicate SameProperties(job: ChannelJob, channel: ChannelPath, seqNo: int, priority: int, eta: Time)
    reads job
  {
    job.seqNo == seqNo && job.priority == priority && job.eta == eta && job.channel == channel
  }

  lemma StateMeans(notified: Notified)
    ensures StateOf(notified) == if notified.Missing? then Done else notified.state
  {
  }

  lemma SameMeans(job: ChannelJob, dbName: string, dateCreated: int, channel: ChannelPath, seqNo: int,
                  priority: int, eta: Time)
    ensures SameOrigin(job, dbName, dateCreated) <==> job.dbName == dbName && job.dateCreated == dateCreated
    ensures SameProperties(job, channel, seqNo, priority, eta) <==>
      job.seqNo == seqNo && job.priority == priority && job.eta == eta && job.channel == channel
  {
  }

  lemma RegisterIs(s: Sched, job: ChannelJob)
    ensures job.uuid in s.byUuid && s.byUuid[job.uuid] == job ==> Register(s, job) == s
    ensures !(job.uuid in s.byUuid && s.byUuid[job.uuid] == job) ==>
      Register(s, job) == Forget(s, job.uuid).(byUuid := Forget(s, job.uuid).byUuid[job.uuid := job])
  {
  }

  lemma ForgetIs(s: Sched, uuid: Uuid)
    ensures uuid in s.byUuid ==>
      Forget(s, uuid) == Sched(ChannelTree.Remove(s.tree, s.byUuid[uuid].channel, s.byUuid[uuid]), s.byUuid - {uuid})
    ensures uuid !in s.byUuid ==> Forget(s, uuid) == s
  {
  }

  lemma TransitionIs(t: Tree, job: ChannelJob, eta: Time, state: JobState)
    requires Closed(t) && job.channel in t
    ensures state.Done? ==> Transition(t, job, eta, state) == ChannelTree.Remove(t, job.channel, job)
    ensures state.Pending? ==> Transition(t, job, eta, state) == ChannelTree.SetPending(t, job.channel, job, eta)
    ensures state.Enqueued? || state.Started? ==> Transition(t, job, eta, state) == ChannelTree.SetRunning(t, job.channel, job)
    ensures state.Failed? ==> Transition(t, job, eta, state) == ChannelTree.SetFailed(t, job.channel, job)
    ensures state.WaitDependencies? || state.Cancelled? ==> Transition(t, job, eta, state) == t
  {
  }
}
