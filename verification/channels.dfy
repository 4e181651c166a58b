// The scheduler's classes: the queue of a channel, the channel, and the tree they form.
module Channels {
  import opened ChannelJobs
  import opened PriorityQueues
  import opened ChannelTree
  import opened ChannelTurn

  class ChannelQueue {
    const queue: PriorityQueue
    const etaQueue: PriorityQueue
    var sequential: bool

    constructor (sequential: bool)
      ensures fresh(queue) && fresh(etaQueue) && this.sequential == sequential
      ensures queue.heap == etaQueue.heap == [] && queue.known == etaQueue.known == {}
      ensures forall n :: Valid(n)
      ensures View().waiting == map[] && View().ready == {}
    {
      queue := new PriorityQueue();
      etaQueue := new PriorityQueue();
      this.sequential := sequential;
    }

    // The queue of channel n. Only jobs of channel n itself can have an eta in it, and no job
    // in the heap without etas has one.
    ghost predicate Valid(n: ChannelPath)
      reads this, queue, etaQueue, queue.heap, etaQueue.heap, queue.known, etaQueue.known
    {
      && queue != etaQueue && queue.Valid() && etaQueue.Valid()
      && (forall j :: j in queue.known ==> j.eta == 0.0)
      && (forall j :: j in etaQueue.known ==> j.eta != 0.0 && j.channel == n)
    }

    // The queue as the queue part of a channel.
    ghost function View(): Chan
      reads this, queue, etaQueue, etaQueue.known`eta
    {
      Chan(0, sequential, 0, map j | j in etaQueue.Contents() :: j.eta, queue.Contents(), {}, {}, 0.0)
    }

    method Contains(job: ChannelJob) returns (b: bool)
      ensures b == (job in Queued(View()))
    {
      b := etaQueue.Contains(job);
      if !b {
        b := queue.Contains(job);
      }
    }

    method Add(job: ChannelJob, ghost n: ChannelPath)
      requires Valid(n) && (job.eta != 0.0 ==> job.channel == n)
      modifies queue, etaQueue
      ensures Valid(n) && View() == Enqueue(old(View()), job, job.eta)
      ensures etaQueue.known <= old(etaQueue.known) + {job} && queue.known <= old(queue.known) + {job}
    {
      if job.eta != 0.0 {
        etaQueue.Add(job);
      } else {
        queue.Add(job);
      }
    }

    method Remove(job: ChannelJob, ghost n: ChannelPath)
      requires Valid(n)
      modifies queue, etaQueue
      ensures Valid(n) && etaQueue.known <= old(etaQueue.known) && queue.known <= old(queue.known)
      ensures View() == Without(old(View()), job)
    {
      etaQueue.Remove(job);
      queue.Remove(job);
    }

    // Takes the job with the first eta and makes it a job without eta. The job is then in
    // neither heap, so that no key of a job in a heap has changed.
    method PopEtaJob(ghost n: ChannelPath) returns (job: ChannelJob)
      requires Valid(n) && etaQueue.Contents() != {}
      modifies etaQueue, etaQueue.known`eta
      ensures Valid(n) && etaQueue.known < old(etaQueue.known)
      ensures job in old(etaQueue.Contents()) && etaQueue.Contents() == old(etaQueue.Contents()) - {job}
      ensures forall j :: j in old(etaQueue.Contents()) ==> old(job.eta) <= old(j.eta)
      ensures job.eta == 0.0 && job !in queue.known && job !in etaQueue.known
      ensures forall j :: j in old(etaQueue.known) && j != job ==> j.eta == old(j.eta)
    {
      job := etaQueue.Pop();
      HeapElements(queue);
      HeapElements(etaQueue);
      job.eta := 0.0;
    }

    method MoveFirst(ghost n: ChannelPath) returns (job: ChannelJob)
      requires Valid(n) && View().waiting != map[]
      modifies queue, etaQueue, etaQueue.known`eta
      ensures Valid(n) && etaQueue.known < old(etaQueue.known)
      ensures forall j :: j in etaQueue.known ==> j.eta == old(j.eta)
      ensures job in old(View()).waiting
      ensures forall j :: j in old(View()).waiting ==> old(View()).waiting[job] <= old(View()).waiting[j]
      ensures View() == old(View()).(waiting := old(View()).waiting - {job}, ready := old(View()).ready + {job})
      ensures job in old(etaQueue.known) && queue.known == old(queue.known) + {job}
    {
      hide PriorityQueue.Valid;
      job := PopEtaJob(n);
      assert View().waiting == old(View()).waiting - {job};
      queue.Add(job);
    }

    // The earliest eta, or nothing if no job has one.
    method FirstEta(ghost n: ChannelPath) returns (found: bool, eta: Time)
      requires Valid(n)
      modifies queue, etaQueue
      ensures Valid(n) && View() == old(View()) && etaQueue.known <= old(etaQueue.known)
      ensures queue.known <= old(queue.known)
      ensures IsFirstEta(View().waiting, found, eta)
    {
      var first := etaQueue.Peek();
      if first == null {
        return false, 0.0;
      }
      assert first in View().waiting;
      return true, first.eta;
    }

    // Moves the jobs whose eta has come to the queue without etas.
    method PromoteDue(now: Time, ghost n: ChannelPath)
      requires Valid(n)
      modifies queue, etaQueue, etaQueue.known`eta
      ensures Valid(n) && View() == Promote(old(View()), now)
      ensures queue.known <= old(queue.known) + old(etaQueue.known)
      ensures etaQueue.known <= old(etaQueue.known)
      ensures forall j :: j in etaQueue.known ==> j.eta == old(j.eta)
    {
      hide *;
      ghost var before := View();
      var found, eta := FirstEta(n);
      while found && eta <= now
        invariant Valid(n) && etaQueue.known <= old(etaQueue.known)
        invariant queue.known <= old(queue.known) + old(etaQueue.known)
        invariant forall j :: j in etaQueue.known ==> j.eta == old(j.eta)
        invariant Promote(View(), now) == Promote(before, now)
        invariant IsFirstEta(View().waiting, found, eta)
        decreases etaQueue.known
      {
        ghost var v := View();
        FirstEtaMeans(v.waiting, found, eta);
        var job := MoveFirst(n);
        PromoteStep(v, now, job);
        found, eta := FirstEta(n);
      }
      FirstEtaMeans(View().waiting, found, eta);
      PromoteNothing(View(), now);
    }

    // The first job with an eta and the first one without decide whether a sequential queue waits.
    method MustWait(ghost n: ChannelPath) returns (wait: bool)
      requires Valid(n)
      modifies queue, etaQueue
      ensures Valid(n) && View() == old(View()) && etaQueue.known <= old(etaQueue.known)
      ensures queue.known <= old(queue.known)
      ensures wait <==> Blocked(View())
    {
      var etaJob := etaQueue.Peek();
      var first := queue.Peek();
      if sequential && etaJob != null && first != null {
        assert FirstWaiting(View(), etaJob) && FirstReady(View(), first);
        BlockedByFirsts(View(), etaJob, first);
        return KeyLess(etaJob, first);
      }
      return false;
    }

    // The first job without eta.
    method TakeFirst(ghost n: ChannelPath) returns (job: ChannelJob?)
      requires Valid(n)
      modifies queue
      ensures Valid(n) && queue.known <= old(queue.known)
      ensures job == null ==> View() == old(View()) && View().ready == {}
      ensures job != null ==> FirstReady(old(View()), job) && View() == old(View()).(ready := old(View()).ready - {job})
      ensures job != null ==> job.eta == 0.0 && job in old(queue.known)
    {
      job := queue.Pop();
    }

    method Pop(now: Time, ghost n: ChannelPath) returns (job: ChannelJob?)
      requires Valid(n)
      modifies queue, etaQueue, etaQueue.known`eta
      ensures Valid(n) && etaQueue.known <= old(etaQueue.known)
      ensures forall j :: j in etaQueue.known ==> j.eta == old(j.eta)
      ensures Popped(old(View()), now, View(), job)
      ensures job != null ==> job.eta == 0.0 && job in old(queue.known) + old(etaQueue.known)
      ensures queue.known <= old(queue.known) + old(etaQueue.known)
    {
      hide *;
      ghost var before := View();
      PromoteDue(now, n);
      var wait := MustWait(n);
      ghost var p := View();
      if wait {
        PoppedIs(before, now, p, null);
        return null;
      }
      job := TakeFirst(n);
      PoppedIs(before, now, View(), job);
    }

    method GetWakeupTime(wakeup: Time, ghost n: ChannelPath) returns (r: Time)
      requires Valid(n)
      modifies queue, etaQueue
      ensures Valid(n) && View() == old(View()) && etaQueue.known <= old(etaQueue.known)
      ensures queue.known <= old(queue.known)
      ensures Earliest(wakeup, View().waiting.Values, r)
    {
      r := wakeup;
      var found, eta := FirstEta(n);
      EarliestEta(View().waiting, found, eta, wakeup);
      if found {
        r := if wakeup == 0.0 || eta < wakeup then eta else wakeup;
      }
    }
  }

  // The earliest of some etas, if there is any.
  ghost predicate IsFirstEta(waiting: map<ChannelJob, Time>, found: bool, eta: Time) {
    && (found <==> waiting != map[])
    && (found ==> eta in waiting.Values) && (forall j :: j in waiting ==> eta <= waiting[j] || !found)
  }

  lemma FirstEtaMeans(waiting: map<ChannelJob, Time>, found: bool, eta: Time)
    requires IsFirstEta(waiting, found, eta)
    ensures found <==> waiting != map[]
    ensures forall j :: j in waiting ==> found && eta <= waiting[j]
    ensures found ==> exists j :: j in waiting && waiting[j] == eta
  {
  }

  lemma EarliestEta(waiting: map<ChannelJob, Time>, found: bool, eta: Time, wakeup: Time)
    requires IsFirstEta(waiting, found, eta)
    ensures Earliest(wakeup, waiting.Values, if !found then wakeup else if wakeup == 0.0 || eta < wakeup then eta else wakeup)
  {
  }

  lemma PoppedIs(ch: Chan, now: Time, ch': Chan, job: ChannelJob?)
    requires var p := Promote(ch, now);
      if job == null then ch' == p && (Blocked(p) || p.ready == {})
      else !Blocked(p) && FirstReady(p, job) && ch' == p.(ready := p.ready - {job})
    ensures Popped(ch, now, ch', job)
  {
  }

  class Channel {
    const path: ChannelPath
    const parent: Channel?
    const queue: ChannelQueue
    var children: seq<Channel>
    var running: set<ChannelJob>
    var failed: set<ChannelJob>
    var pauseUntil: Time
    var capacity: int
    var throttle: int

    ghost function View(): Chan
      reads this, queue, queue.queue, queue.etaQueue, queue.etaQueue.known`eta
    {
      queue.View().(capacity := capacity, throttle := throttle, running := running, failed := failed,
                    pauseUntil := pauseUntil)
    }

    ghost function Heaps(): set<PriorityQueue> {
      {queue.queue, queue.etaQueue}
    }

    // A channel starts empty and is added to the children of its parent.
    constructor (path: ChannelPath, parent: Channel?, capacity: int)
      modifies (if parent == null then {} else {parent})`children
      ensures this.path == path && this.parent == parent && children == []
      ensures fresh(queue) && fresh(queue.queue) && fresh(queue.etaQueue) && forall n :: queue.Valid(n)
      ensures queue.queue.heap == queue.etaQueue.heap == [] && queue.queue.known == queue.etaQueue.known == {}
      ensures View() == Chan(capacity, false, 0, map[], {}, {}, {}, 0.0)
      ensures parent != null ==> parent.children == old(parent.children) + [this]
    {
      this.path, this.parent, this.capacity := path, parent, capacity;
      queue := new ChannelQueue(false);
      children, running, failed, pauseUntil, throttle := [], {}, {}, 0.0, 0;
      new;
      if parent != null {
        parent.children := parent.children + [this];
      }
    }

    // This channel is channel `path` of the forest.
    ghost predicate In(f: Forest) {
      path in f.at && f.at[path] == this
    }

    method Unqueue(ghost f: Forest, job: ChannelJob)
      requires In(f) && NodeOk(f, path)
      modifies queue.queue, queue.etaQueue
      ensures NodeOk(f, path) && queue.View() == Without(old(queue.View()), job)
    {
      hide PriorityQueue.Valid, Leq;
      queue.Remove(job, path);
      HeapElements(queue.queue);
      HeapElements(queue.etaQueue);
    }

    method Enter(ghost f: Forest, job: ChannelJob)
      requires In(f) && NodeOk(f, path) && job in f.jobs && (job.eta != 0.0 ==> job.channel == path)
      modifies queue.queue, queue.etaQueue
      ensures NodeOk(f, path) && queue.View() == Enqueue(old(queue.View()), job, old(job.eta))
    {
      hide PriorityQueue.Valid, Leq;
      queue.Add(job, path);
      HeapElements(queue.queue);
      HeapElements(queue.etaQueue);
    }

    // The local part of the removal of a job.
    method DropHere(ghost f: Forest, job: ChannelJob)
      requires In(f) && NodeOk(f, path)
      modifies `running, `failed, queue.queue, queue.etaQueue
      ensures NodeOk(f, path) && View() == Without(old(View()), job)
    {
      hide NodeOk, ChannelQueue.View;
      Unqueue(f, job);
      running := running - {job};
      failed := failed - {job};
    }

    method Drop(ghost f: Forest, job: ChannelJob)
      requires Ok(f) && In(f)
      modifies `running, `failed, queue.queue, queue.etaQueue
      ensures Ok(f) && TreeOf(f) == old(TreeOf(f))[path := Without(old(TreeOf(f))[path], job)]
    {
      assert NodeOk(f, path);
      hide Ok, NodeOk, TreeOf, ChannelTree.Remove, Without, Enqueue;
      DropHere(f, job);
      StepOk(f, path);
    }

    method Remove(ghost f: Forest, job: ChannelJob)
      requires Ok(f) && In(f)
      modifies f.channels`running, f.channels`failed, f.heaps
      ensures Ok(f) && TreeOf(f) == ChannelTree.Remove(old(TreeOf(f)), path, job)
      decreases path
    {
      hide Ok, NodeOk, TreeOf, ChannelTree.Remove, Without, Enqueue;
      Links(f, path);
      RemoveFromParent(TreeOf(f), path, Without(TreeOf(f)[path], job), job);
      Drop(f, job);
      if parent != null {
        parent.Remove(f, job);
      }
    }

    // Moves a job that is not queued in this channel to its queue: the local part.
    method RequeueHere(ghost f: Forest, job: ChannelJob)
      requires In(f) && NodeOk(f, path)
      requires job in f.jobs && job.channel == path && job !in Queued(View())
      modifies `running, `failed, queue.queue, queue.etaQueue
      ensures NodeOk(f, path) && View() == Pend(old(View()), job, old(job.eta))
    {
      hide NodeOk;
      Enter(f, job);
      running := running - {job};
      failed := failed - {job};
    }

    method Requeue(ghost f: Forest, job: ChannelJob)
      requires Ok(f) && In(f) && job in f.jobs && job.channel == path && job !in Queued(TreeOf(f)[path])
      modifies `running, `failed, queue.queue, queue.etaQueue
      ensures Ok(f)
      ensures TreeOf(f) == old(TreeOf(f))[path := Pend(old(TreeOf(f))[path], job, old(job.eta))]
    {
      assert NodeOk(f, path);
      hide Ok, NodeOk, TreeOf, ChannelTree.Remove, Without, Enqueue;
      RequeueHere(f, job);
      StepOk(f, path);
    }

    method IsQueued(ghost f: Forest, job: ChannelJob) returns (b: bool)
      requires Ok(f) && In(f)
      ensures b == (job in Queued(TreeOf(f)[path]))
    {
      Links(f, path);
      b := queue.Contains(job);
    }

    method SetPending(ghost f: Forest, job: ChannelJob)
      requires Ok(f) && In(f) && job in f.jobs && job.channel == path && path in TreeOf(f)
      modifies f.channels`running, f.channels`failed, f.heaps
      ensures Ok(f) && TreeOf(f) == ChannelTree.SetPending(old(TreeOf(f)), path, job, old(job.eta))
    {
      Links(f, path);
      hide Ok, NodeOk, TreeOf, ChannelTree.Remove, Pend, Queued, Channel.View;
      var queued := IsQueued(f, job);
      if !queued {
        RemoveFromParent(TreeOf(f), path, Pend(TreeOf(f)[path], job, job.eta), job);
        Requeue(f, job);
        if parent != null {
          parent.Remove(f, job);
        }
      }
    }

    method RunHere(ghost f: Forest, job: ChannelJob)
      requires In(f) && NodeOk(f, path)
      modifies `running, `failed, queue.queue, queue.etaQueue
      ensures NodeOk(f, path) && View() == Run(old(View()), job)
    {
      hide NodeOk, ChannelQueue.View;
      Unqueue(f, job);
      running := running + {job};
      failed := failed - {job};
    }

    method StartHere(ghost f: Forest, job: ChannelJob)
      requires Ok(f) && In(f)
      modifies `running, `failed, queue.queue, queue.etaQueue
      ensures Ok(f) && TreeOf(f) == old(TreeOf(f))[path := Run(old(TreeOf(f))[path], job)]
    {
      assert NodeOk(f, path);
      hide Ok, NodeOk, TreeOf, Run;
      RunHere(f, job);
      StepOk(f, path);
    }

    method SetRunning(ghost f: Forest, job: ChannelJob)
      requires Ok(f) && In(f) && Closed(TreeOf(f)) && path in TreeOf(f)
      modifies f.channels`running, f.channels`failed, f.heaps
      ensures Ok(f) && TreeOf(f) == ChannelTree.SetRunning(old(TreeOf(f)), path, job)
      decreases path
    {
      Links(f, path);
      hide Ok, NodeOk, TreeOf, Run;
      if job !in running {
        StartHere(f, job);
        if parent != null {
          Links(f, path.parent);
          parent.SetRunning(f, job);
        }
      }
    }

    method FailHere(ghost f: Forest, job: ChannelJob)
      requires In(f) && NodeOk(f, path)
      modifies `running, `failed, queue.queue, queue.etaQueue
      ensures NodeOk(f, path) && View() == Fail(old(View()), job)
    {
      hide NodeOk, ChannelQueue.View;
      Unqueue(f, job);
      running := running - {job};
      failed := failed + {job};
    }

    method MarkFailed(ghost f: Forest, job: ChannelJob)
      requires Ok(f) && In(f)
      modifies `running, `failed, queue.queue, queue.etaQueue
      ensures Ok(f) && TreeOf(f) == old(TreeOf(f))[path := Fail(old(TreeOf(f))[path], job)]
    {
      assert NodeOk(f, path);
      hide Ok, NodeOk, TreeOf, Fail;
      FailHere(f, job);
      StepOk(f, path);
    }

    method SetFailed(ghost f: Forest, job: ChannelJob)
      requires Ok(f) && In(f) && path in TreeOf(f)
      modifies f.channels`running, f.channels`failed, f.heaps
      ensures Ok(f) && TreeOf(f) == ChannelTree.SetFailed(old(TreeOf(f)), path, job)
    {
      Links(f, path);
      hide Ok, NodeOk, TreeOf, ChannelTree.Remove, Fail;
      if job !in failed {
        RemoveFromParent(TreeOf(f), path, Fail(TreeOf(f)[path], job), job);
        MarkFailed(f, job);
        if parent != null {
          parent.Remove(f, job);
        }
      }
    }

    method HasRoom() returns (b: bool)
      ensures b <==> !(queue.sequential && failed != {}) && (capacity == 0 || |running| < capacity)
      ensures b == HasCapacity(View())
    {
      if queue.sequential && failed != {} {
        return false;
      }
      if capacity == 0 {
        return true;
      }
      return |running| < capacity;
    }

    // Takes the next job from the queue, without starting it.
    method PopHere(ghost f: Forest, now: Time) returns (job: ChannelJob?)
      requires In(f) && NodeOk(f, path)
      modifies queue.queue, queue.etaQueue, queue.etaQueue.known`eta
      ensures NodeOk(f, path) && Popped(old(View()), now, View(), job)
      ensures queue.etaQueue.known <= old(queue.etaQueue.known)
      ensures job != null ==> job.eta == 0.0 && job in f.jobs
      ensures forall j :: j in f.jobs && old(j.eta) == 0.0 ==> j.eta == 0.0
    {
      hide PriorityQueue.Valid, Popped;
      ghost var q, ch := queue.View(), View();
      HeapElements(queue.queue);
      HeapElements(queue.etaQueue);
      job := queue.Pop(now, path);
      HeapElements(queue.queue);
      HeapElements(queue.etaQueue);
      PoppedInChannel(q, now, queue.View(), job, ch, View());
    }

    // One round of the loop: takes a job and starts it, or ends the loop.
    method DrawHere(ghost f: Forest, now: Time, ghost ch0: Chan, ghost jobs: seq<ChannelJob>) returns (job: ChannelJob?)
      requires In(f) && NodeOk(f, path) && Drawing(path, ch0, now, View(), jobs) && HasCapacity(View())
      requires ch0.throttle == 0 || (ch0.pauseUntil == 0.0 && jobs == [])
      requires Stuck(ch0, now) ==> jobs == []
      modifies `running, queue.queue, queue.etaQueue, queue.etaQueue.known`eta
      ensures NodeOk(f, path) && queue.etaQueue.known <= old(queue.etaQueue.known)
      ensures job == null ==> OwnTurn(path, ch0, now, View(), jobs)
      ensures job != null ==> Drawing(path, ch0, now, View(), jobs + [job]) && !Stuck(ch0, now)
      ensures job != null ==> Queued(View()) < Queued(old(View())) && job.eta == 0.0 && job in f.jobs
      ensures forall j :: j in f.jobs && old(j.eta) == 0.0 ==> j.eta == 0.0
    {
      hide OwnTurn, Drawing, Popped, Stuck, HasCapacity;
      ghost var ch := View();
      job := PopHere(f, now);
      ghost var ch1 := View();
      if job == null {
        DrawNone(path, ch0, now, ch, jobs, ch1);
      } else {
        DrawOne(path, ch0, now, ch, jobs, ch1, job);
        DrawingNotStuck(path, ch0, now, ch, jobs, ch1, job);
        running := running + {job};
        assert View() == Start(ch1, job);
      }
    }

    // Takes jobs from the queue of this channel while it has capacity, one if it is throttled.
    method DrawAllHere(ghost f: Forest, now: Time) returns (jobs: seq<ChannelJob>)
      requires In(f) && NodeOk(f, path) && LocallySound(path, View()) && (throttle == 0 || pauseUntil == 0.0)
      modifies `running, `pauseUntil, queue.queue, queue.etaQueue, queue.etaQueue.known`eta
      ensures NodeOk(f, path) && OwnTurn(path, old(View()), now, View(), jobs)
      ensures forall j :: j in jobs ==> j.eta == 0.0 && j in f.jobs
      ensures forall j :: j in f.jobs && old(j.eta) == 0.0 ==> j.eta == 0.0
    {
      hide OwnTurn, Drawing, Stuck, HasCapacity, LocallySound, NodeOk, ChannelQueue.View, Queued, Held;
      jobs := [];
      ghost var ch0 := View();
      DrawingStart(path, ch0, ch0, now);
      var room := HasRoom();
      while room
        invariant In(f) && NodeOk(f, path) && Drawing(path, ch0, now, View(), jobs)
        invariant queue.etaQueue.known <= old(queue.etaQueue.known)
        invariant room <==> HasCapacity(View())
        invariant throttle == ch0.throttle && (ch0.throttle == 0 || (ch0.pauseUntil == 0.0 && jobs == []))
        invariant Stuck(ch0, now) ==> jobs == []
        invariant forall j :: j in jobs ==> j.eta == 0.0 && j in f.jobs
        invariant forall j :: j in f.jobs && old(j.eta) == 0.0 ==> j.eta == 0.0
        decreases Queued(View())
      {
        var job := DrawHere(f, now, ch0, jobs);
        if job == null {
          return;
        }
        jobs := jobs + [job];
        if throttle != 0 {
          assert jobs == [job];
          DrawThrottled(path, ch0, now, View(), job);
          pauseUntil := now + throttle as real;
          return;
        }
        room := HasRoom();
      }
      DrawFull(path, ch0, now, View(), jobs);
    }

    // The part of get_jobs_to_run after the children were asked.
    method DrainHere(ghost f: Forest, now: Time) returns (jobs: seq<ChannelJob>)
      requires In(f) && NodeOk(f, path) && LocallySound(path, View())
      modifies `running, `pauseUntil, queue.queue, queue.etaQueue, queue.etaQueue.known`eta
      ensures NodeOk(f, path) && OwnTurn(path, old(View()), now, View(), jobs) && OnlyTouched(f, this)
      ensures forall j :: j in jobs ==> j.eta == 0.0 && j in f.jobs
      ensures forall j :: j in f.jobs && old(j.eta) == 0.0 ==> j.eta == 0.0
    {
      hide OwnTurn, Stuck, HasCapacity, NodeOk, In;
      jobs := [];
      ghost var ch := View();
      if throttle != 0 && pauseUntil != 0.0 {
        if now < pauseUntil {
          PausedTurn(path, ch, now);
          return;
        }
        pauseUntil := 0.0;
      }
      ghost var ch0 := View();
      assert ch0 == ch || (throttle != 0 && !Paused(ch, now) && ch0 == ch.(pauseUntil := 0.0));
      jobs := DrawAllHere(f, now);
      TurnFromUnpaused(path, ch, ch0, now, View(), jobs);
    }

    // The jobs a child yields are added to the queue.
    method AddArrived(ghost f: Forest, jobs: seq<ChannelJob>)
      requires Ok(f) && In(f) && forall j :: j in jobs ==> j.eta == 0.0 && j in f.jobs
      modifies queue.queue, queue.etaQueue
      ensures Ok(f) && TreeOf(f) == old(TreeOf(f))[path := Arrive(old(TreeOf(f))[path], Elements(jobs))]
    {
      assert NodeOk(f, path);
      hide Ok, Arrive;
      ghost var ch := View();
      for i := 0 to |jobs|
        invariant NodeOk(f, path) && View() == Arrive(ch, Elements(jobs[..i]))
      {
        Enter(f, jobs[i]);
        assert jobs[..i + 1] == jobs[..i] + [jobs[i]];
        assert Elements(jobs[..i + 1]) == Elements(jobs[..i]) + {jobs[i]};
        ArriveTwice(ch, ch.ready + Elements(jobs[..i]), {jobs[i]});
        ArriveFlat(ch, Elements(jobs[..i]), {jobs[i]});
      }
      assert jobs[..|jobs|] == jobs;
      hide NodeOk;
      StepOk(f, path);
    }

    // Asks the children for their jobs, in turn.
    method AskChildren(ghost f: Forest, now: Time) returns (ghost done: set<ChannelPath>)
      requires Ok(f) && In(f) && SoundFrom(TreeOf(f), path)
      modifies f.channels`running, f.channels`pauseUntil, f.heaps, f.jobs`eta
      ensures Ok(f) && path in old(TreeOf(f))
      ensures Progressing(old(TreeOf(f)), path, now, TreeOf(f), done)
      ensures forall c :: c in f.at && IsChild(path, c) ==> c in done
      decreases Size(f, path), 0
    {
      hide *;
      InForest(f);
      Links(f, path);
      ghost var t := TreeOf(f);
      ghost var cs := children;
      done := {};
      assert done == ChildNames(cs[..0]) by { NoChildNames(); }
      ProgressStart(t, path, now);
      for i := 0 to |children|
        invariant Ok(f) && Progressing(t, path, now, TreeOf(f), done)
        invariant children == cs && done == ChildNames(cs[..i])
      {
        ListedChild(f, path, cs, i);
        AskOne(f, now, children[i], t, done);
        done := done + {children[i].path};
      }
      ListedAll(f, path, cs);
    }

    method AskOne(ghost f: Forest, now: Time, child: Channel, ghost t: Tree, ghost done: set<ChannelPath>)
      requires Ok(f) && In(f) && path in t && Progressing(t, path, now, TreeOf(f), done)
      requires child.In(f) && IsChild(path, child.path) && child.path in t && child.path !in done
      modifies f.channels`running, f.channels`pauseUntil, f.heaps, f.jobs`eta
      ensures Ok(f) && Progressing(t, path, now, TreeOf(f), done + {child.path})
      decreases Size(f, child.path), 2
    {
      ghost var c := child.path;
      hide *;
      InForest(f);
      child.InForest(f);
      ghost var t1 := TreeOf(f);
      Links(f, c);
      Links(f, path);
      ProgressAt(t, path, now, t1, done);
      var jobs := child.GetJobsToRun(f, now);
      ProgressStep(t, path, now, t1, done, c, TreeOf(f), jobs);
      AddArrived(f, jobs);
    }

    method GetJobsToRun(ghost f: Forest, now: Time) returns (jobs: seq<ChannelJob>)
      requires Ok(f) && In(f) && SoundFrom(TreeOf(f), path) && path in TreeOf(f)
      modifies f.channels`running, f.channels`pauseUntil, f.heaps, f.jobs`eta
      ensures Ok(f) && Turn(old(TreeOf(f)), path, now, TreeOf(f), jobs)
      ensures forall j :: j in jobs ==> j.eta == 0.0 && j in f.jobs
      decreases Size(f, path), 1
    {
      hide Ok, TreeOf, Turn, SoundFrom, Progressing, OwnTurn;
      ghost var t := TreeOf(f);
      ghost var done := AskChildren(f, now);
      ghost var t1 := TreeOf(f);
      jobs := DrainOwn(f, now, t, done);
    }

    method DrainOwn(ghost f: Forest, now: Time, ghost t: Tree, ghost done: set<ChannelPath>) returns (jobs: seq<ChannelJob>)
      requires Ok(f) && In(f) && path in t && Progressing(t, path, now, TreeOf(f), done)
      requires forall c :: c in f.at && IsChild(path, c) ==> c in done
      modifies f.channels`running, f.channels`pauseUntil, f.heaps, f.jobs`eta
      ensures Ok(f) && Turn(t, path, now, TreeOf(f), jobs)
      ensures forall j :: j in jobs ==> j.eta == 0.0 && j in f.jobs
    {
      hide *;
      ghost var t1 := TreeOf(f);
      assert f.at[path] == this by { InForest(f); }
      Links(f, path);
      ProgressAt(t, path, now, t1, done);
      ProgressDone(t, path, now, t1, done);
      jobs := DrainHere(f, now);
      StepOk(f, path);
      ViewInForest(f);
      FinishTurn(t, path, now, t1, View(), jobs);
    }

    lemma InForest(f: Forest)
      requires In(f)
      ensures path in f.at && f.at[path] == this
    {
    }

    lemma ViewInForest(f: Forest)
      requires In(f) && NodeOk(f, path)
      ensures ViewAt(f, path) == View()
    {
    }

    method QueueWakeupHere(ghost f: Forest, wakeup: Time) returns (r: Time)
      requires In(f) && NodeOk(f, path)
      modifies queue.queue, queue.etaQueue
      ensures NodeOk(f, path) && View() == old(View()) && OnlyTouched(f, this)
      ensures Earliest(wakeup, View().waiting.Values, r)
    {
      hide PriorityQueue.Valid, Leq, Earliest;
      HeapElements(queue.queue);
      HeapElements(queue.etaQueue);
      r := queue.GetWakeupTime(wakeup, path);
      HeapElements(queue.queue);
      HeapElements(queue.etaQueue);
    }

    method QueueWakeup(ghost f: Forest, wakeup: Time) returns (r: Time)
      requires Ok(f) && In(f) && path in TreeOf(f)
      modifies f.heaps
      ensures Ok(f) && TreeOf(f) == old(TreeOf(f))
      ensures Earliest(wakeup, TreeOf(f)[path].waiting.Values, r)
    {
      hide *;
      InForest(f);
      Links(f, path);
      ghost var t := TreeOf(f);
      r := QueueWakeupHere(f, wakeup);
      StepOk(f, path);
      ViewInForest(f);
      assert t[path := t[path]] == t;
    }

    lemma PauseOf()
      ensures View().pauseUntil == pauseUntil
      ensures Clear(View()) <==> HasCapacity(View()) && pauseUntil == 0.0
    {
    }

    // The earliest time at which this channel or one above it asks to be woken up.
    method GetWakeupTime(ghost f: Forest, wakeup: Time) returns (r: Time)
      requires Ok(f) && In(f) && SoundFrom(TreeOf(f), path) && path in TreeOf(f)
      modifies f.heaps
      ensures Ok(f) && TreeOf(f) == old(TreeOf(f)) && Closed(TreeOf(f))
      ensures Earliest(wakeup, Wakeups(TreeOf(f), path), r)
      decreases Size(f, path), 1
    {
      hide *;
      ghost var t := TreeOf(f);
      InForest(f);
      Links(f, path);
      PauseOf();
      WakeupsSplit(t, path);
      EarliestNone(wakeup);
      EarliestOne(wakeup, pauseUntil);
      var room := HasRoom();
      if !room {
        return wakeup;
      }
      if pauseUntil != 0.0 {
        return if wakeup == 0.0 || pauseUntil < wakeup then pauseUntil else wakeup;
      }
      r := AskWakeups(f, wakeup);
    }

    method AskWakeups(ghost f: Forest, wakeup: Time) returns (r: Time)
      requires Ok(f) && In(f) && SoundFrom(TreeOf(f), path) && path in TreeOf(f)
      modifies f.heaps
      ensures Ok(f) && TreeOf(f) == old(TreeOf(f)) && Closed(TreeOf(f))
      ensures var t := TreeOf(f);
        Earliest(wakeup, t[path].waiting.Values + WakeupsOf(t, set c | c in t && IsChild(path, c)), r)
      decreases Size(f, path), 0
    {
      hide *;
      InForest(f);
      Links(f, path);
      ghost var t := TreeOf(f);
      ghost var cs := children;
      r := QueueWakeup(f, wakeup);
      WakeupsOfNone(t, path, wakeup, r);
      assert ChildNames(cs[..0]) == {} by { NoChildNames(); }
      for i := 0 to |children|
        invariant Ok(f) && TreeOf(f) == t && children == cs
        invariant Earliest(wakeup, t[path].waiting.Values + WakeupsOf(t, ChildNames(cs[..i])), r)
      {
        ghost var r0 := r;
        ListedChild(f, path, cs, i);
        SoundFromChild(t, path, cs[i].path);
        r := children[i].GetWakeupTime(f, r);
        WakeupsOfOne(t, path, wakeup, ChildNames(cs[..i]), r0, cs[i].path, r);
      }
      ListedAll(f, path, cs);
      AllChildNames(f, path, cs, t);
    }
  }

  // The channels of a tree by name, and all objects they are made of.
  datatype Forest = Forest(
    at: map<ChannelPath, Channel>, channels: set<Channel>, queues: set<ChannelQueue>,
    heaps: set<PriorityQueue>, jobs: set<ChannelJob>)

  // The objects of one channel belong to the forest.
  ghost predicate NodeIn(f: Forest, c: Channel)
    reads f.heaps
  {
    && c in f.channels && c.queue in f.queues
    && c.queue.queue in f.heaps && c.queue.etaQueue in f.heaps
    && (forall j :: j in c.queue.queue.heap ==> j in f.jobs) && c.queue.queue.known <= f.jobs
    && (forall j :: j in c.queue.etaQueue.heap ==> j in f.jobs) && c.queue.etaQueue.known <= f.jobs
  }

  ghost predicate NodeOk(f: Forest, n: ChannelPath)
    requires n in f.at
    reads f.queues, f.heaps, f.jobs
  {
    && NodeIn(f, f.at[n]) && f.at[n].path == n && f.at[n].queue.Valid(n)
    && (n.Root? ==> f.at[n].parent == null)
    && (n.Sub? ==> n.parent in f.at && f.at[n].parent == f.at[n.parent])
  }

  // A list of all children of channel n, each once.
  ghost predicate ChildrenListed(f: Forest, n: ChannelPath, children: seq<Channel>) {
    && (forall i :: 0 <= i < |children| ==>
        children[i].path in f.at && f.at[children[i].path] == children[i] && IsChild(n, children[i].path))
    && (forall i, k :: 0 <= i < k < |children| ==> children[i] != children[k])
    && (forall m :: m in f.at && IsChild(n, m) ==> f.at[m] in children && f.at[m].path == m)
  }

  ghost predicate ChildrenOk(f: Forest, n: ChannelPath)
    requires n in f.at
    reads f.channels, f.heaps
  {
    && NodeIn(f, f.at[n]) && ChildrenListed(f, n, f.at[n].children)
  }

  // No two channels share a queue or a heap.
  ghost predicate Apart(f: Forest) {
    forall n, m :: n in f.at && m in f.at && n != m ==>
      f.at[n].queue != f.at[m].queue && f.at[n].Heaps() !! f.at[m].Heaps()
  }

  ghost predicate Ok(f: Forest)
    reads f.channels, f.queues, f.heaps, f.jobs
  {
    && Root in f.at && Apart(f)
    && (forall n {:trigger NodeOk(f, n)} :: n in f.at ==> NodeOk(f, n))
    && (forall n {:trigger ChildrenOk(f, n)} :: n in f.at ==> ChildrenOk(f, n))
  }

  ghost function ViewAt(f: Forest, n: ChannelPath): Chan
    requires n in f.at && NodeOk(f, n)
    reads f.channels, f.queues, f.heaps, f.jobs
  {
    f.at[n].View()
  }

  ghost function TreeOf(f: Forest): Tree
    requires Ok(f)
    reads f.channels, f.queues, f.heaps, f.jobs
  {
    assert forall n :: n in f.at ==> NodeOk(f, n);
    map n | n in f.at :: ViewAt(f, n)
  }

  // The number of channels at n and above it.
  ghost function Size(f: Forest, n: ChannelPath): nat {
    |set m | m in f.at && Within(n, m)|
  }

  ghost function ChildNames(children: seq<Channel>): set<ChannelPath> {
    set c | c in children :: c.path
  }

  lemma NoChildNames()
    ensures ChildNames([]) == {}
  {
  }

  lemma ListedChild(f: Forest, n: ChannelPath, children: seq<Channel>, i: nat)
    requires ChildrenListed(f, n, children) && i < |children|
    ensures children[i].path in f.at && children[i].In(f) && IsChild(n, children[i].path)
    ensures children[i].path !in ChildNames(children[..i])
    ensures forall c :: c in ChildNames(children[..i]) ==> IsChild(n, c)
    ensures ChildNames(children[..i + 1]) == ChildNames(children[..i]) + {children[i].path}
    ensures n in f.at ==> Size(f, children[i].path) < Size(f, n)
  {
    var c := children[i].path;
    assert children[..i + 1] == children[..i] + [children[i]];
    if n in f.at {
      var small, big := set m | m in f.at && Within(c, m), set m | m in f.at && Within(n, m);
      ChildNotAbove(n, c);
      forall m | m in small ensures m in big {
        WithinTransitive(n, c, m);
      }
      assert n in big && n !in small;
      ProperSubset(small, big);
    }
  }

  lemma ProperSubset(a: set<ChannelPath>, b: set<ChannelPath>)
    requires a < b
    ensures |a| < |b|
  {
    assert b == a + (b - a);
  }

  lemma ListedAll(f: Forest, n: ChannelPath, children: seq<Channel>)
    requires ChildrenListed(f, n, children)
    ensures forall c :: c in f.at && IsChild(n, c) ==> c in ChildNames(children[..|children|])
  {
    assert children[..|children|] == children;
    forall c | c in f.at && IsChild(n, c) ensures c in ChildNames(children) {
      var i :| 0 <= i < |children| && children[i] == f.at[c];
      assert f.at[children[i].path] == children[i];
    }
  }

  lemma AllChildNames(f: Forest, n: ChannelPath, children: seq<Channel>, t: Tree)
    requires ChildrenListed(f, n, children) && t.Keys == f.at.Keys
    requires forall c :: c in f.at && IsChild(n, c) ==> c in ChildNames(children[..|children|])
    ensures ChildNames(children[..|children|]) == set c | c in t && IsChild(n, c)
  {
    assert children[..|children|] == children;
  }

  lemma Links(f: Forest, n: ChannelPath)
    requires Ok(f) && n in f.at
    ensures f.at[n].path == n && f.at[n] in f.channels && NodeOk(f, n) && f.at[n].queue.etaQueue.known <= f.jobs
    ensures f.at[n].queue.queue in f.heaps && f.at[n].queue.etaQueue in f.heaps
    ensures f.at[n].parent == null <==> n.Root?
    ensures n.Sub? ==> n.parent in f.at && f.at[n].parent == f.at[n.parent] && f.at[n.parent].path == n.parent
    ensures f.at[n].In(f) && (n.Sub? ==> f.at[n.parent].In(f))
    ensures ChildrenListed(f, n, f.at[n].children)
    ensures TreeOf(f).Keys == f.at.Keys && TreeOf(f)[n] == f.at[n].View()
    ensures Closed(TreeOf(f))
  {
    assert NodeOk(f, n) && ChildrenOk(f, n);
    if n.Sub? { assert NodeOk(f, n.parent); }
    forall m | m in f.at ensures ParentIn(TreeOf(f), m) {
      assert NodeOk(f, m);
    }
  }

  // Nothing but the queue and the sets of channel c has changed, and no eta but those of jobs
  // that were in its eta heap.
  twostate predicate OnlyTouched(f: Forest, c: Channel)
    reads f.channels, f.queues, f.heaps, f.jobs
  {
    && (forall d :: d in f.channels ==> d.children == old(d.children))
    && (forall d :: d in f.channels && d != c ==>
        d.running == old(d.running) && d.failed == old(d.failed) && d.pauseUntil == old(d.pauseUntil) &&
        d.capacity == old(d.capacity) && d.throttle == old(d.throttle))
    && (forall q :: q in f.queues && q != c.queue ==> q.sequential == old(q.sequential))
    && (forall h :: h in f.heaps && h != c.queue.queue && h != c.queue.etaQueue ==>
        h.heap == old(h.heap) && h.known == old(h.known) && h.removed == old(h.removed))
    && (forall j :: j in f.jobs && j !in old(c.queue.etaQueue.known) ==> j.eta == old(j.eta))
  }

  twostate lemma OthersKept(f: Forest, new n: ChannelPath, new m: ChannelPath)
    requires n in f.at && m in f.at && m != n && old(Ok(f))
    requires OnlyTouched(f, f.at[n])
    ensures NodeOk(f, m) && ViewAt(f, m) == old(ViewAt(f, m))
  {
    var c, d := f.at[n], f.at[m];
    assert old(NodeOk(f, n)) && old(NodeOk(f, m));
    assert d.queue.queue in d.Heaps() && d.queue.etaQueue in d.Heaps();
    OldHeapElements(d.queue.queue);
    OldHeapElements(d.queue.etaQueue);
    assert d != c;
    forall j | j in d.queue.queue.heap || j in d.queue.etaQueue.heap
      ensures j.eta == old(j.eta)
    {
      assert j in f.jobs;
    }
    KeptHeap(d.queue.queue);
    KeptHeap(d.queue.etaQueue);
    assert d.queue.View() == old(d.queue.View());
  }

  twostate lemma OldHeapElements(q: PriorityQueue)
    requires old(q.Valid())
    ensures forall j :: j in old(q.heap) <==> j in old(q.known)
  {
    forall j ensures j in old(q.heap) <==> j in old(q.known) {
      assert j in old(q.heap) <==> j in multiset(old(q.heap));
    }
  }

  twostate lemma KeptHeap(q: PriorityQueue)
    requires old(q.Valid()) && q.heap == old(q.heap) && q.known == old(q.known) && q.removed == old(q.removed)
    requires forall j :: j in q.heap ==> j.eta == old(j.eta)
    ensures q.Valid()
  {
    forall i | 1 <= i < |q.heap| ensures InOrder(q.heap, i) {
      assert old(InOrder(q.heap, i));
    }
  }

  twostate lemma ChildrenKept(f: Forest, new n: ChannelPath, new m: ChannelPath)
    requires n in f.at && m in f.at && old(Ok(f)) && NodeOk(f, m)
    requires OnlyTouched(f, f.at[n])
    ensures ChildrenOk(f, m)
  {
    assert old(ChildrenOk(f, m));
  }

  twostate lemma StepOk(f: Forest, new n: ChannelPath)
    requires n in f.at && old(Ok(f)) && NodeOk(f, n)
    requires OnlyTouched(f, f.at[n])
    ensures Ok(f) && TreeOf(f) == old(TreeOf(f))[n := ViewAt(f, n)]
  {
    hide NodeOk, ChildrenOk, OnlyTouched;
    forall m | m in f.at && m != n {
      OthersKept(f, n, m);
    }
    forall m | m in f.at {
      ChildrenKept(f, n, m);
    }
    forall m | m in f.at && m != n ensures TreeOf(f)[m] == old(TreeOf(f)[m]) {
      OthersKept(f, n, m);
      assert TreeOf(f)[m] == ViewAt(f, m);
      assert old(TreeOf(f)[m] == ViewAt(f, m));
    }
    assert TreeOf(f)[n] == ViewAt(f, n);
  }
}
