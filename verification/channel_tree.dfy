// What the tree of channels holds at one moment, as a value, and what each transition of the
// scheduler does to it. The classes of module Channels are proved against these definitions.
module ChannelTree {
  import opened ChannelJobs

  // One channel. `waiting` is the eta queue with the eta of each job in it, `ready` the queue
  // of jobs without eta. A capacity of 0 means unlimited.
  datatype Chan = Chan(
    capacity: int, sequential: bool, throttle: int,
    waiting: map<ChannelJob, Time>, ready: set<ChannelJob>,
    running: set<ChannelJob>, failed: set<ChannelJob>, pauseUntil: Time)

  type Tree = map<ChannelPath, Chan>

  ghost function Queued(ch: Chan): set<ChannelJob> {
    ch.waiting.Keys + ch.ready
  }

  ghost function Held(ch: Chan): set<ChannelJob> {
    Queued(ch) + ch.running + ch.failed
  }

  // The root exists, and so does the parent of every channel.
  ghost predicate Closed(t: Tree) {
    Root in t && forall n {:trigger ParentIn(t, n)} :: n in t ==> ParentIn(t, n)
  }

  ghost predicate ParentIn(t: Tree, n: ChannelPath) {
    n.Sub? ==> n.parent in t
  }

  // ---------- Transitions of one channel ----------

  ghost function Without(ch: Chan, job: ChannelJob): Chan {
    ch.(waiting := ch.waiting - {job}, ready := ch.ready - {job},
        running := ch.running - {job}, failed := ch.failed - {job})
  }

  ghost function Enqueue(ch: Chan, job: ChannelJob, eta: Time): Chan {
    if eta != 0.0 then ch.(waiting := ch.waiting[job := eta]) else ch.(ready := ch.ready + {job})
  }

  ghost function Pend(ch: Chan, job: ChannelJob, eta: Time): Chan {
    Enqueue(Without(ch, job), job, eta)
  }

  ghost function Run(ch: Chan, job: ChannelJob): Chan {
    var ch' := Without(ch, job); ch'.(running := ch'.running + {job})
  }

  ghost function Fail(ch: Chan, job: ChannelJob): Chan {
    var ch' := Without(ch, job); ch'.(failed := ch'.failed + {job})
  }

  // ---------- Transitions of the tree ----------

  // Removal goes from a channel down to the root.
  ghost function Remove(t: Tree, n: ChannelPath, job: ChannelJob): Tree {
    map m | m in t :: if Within(m, n) then Without(t[m], job) else t[m]
  }

  ghost function SetPending(t: Tree, n: ChannelPath, job: ChannelJob, eta: Time): Tree
    requires n in t
  {
    if job in Queued(t[n]) then t
    else Remove(t, n, job)[n := Pend(t[n], job, eta)]
  }

  ghost function SetRunning(t: Tree, n: ChannelPath, job: ChannelJob): (t': Tree)
    requires Closed(t) && n in t
    ensures t'.Keys == t.Keys
  {
    if job in t[n].running then t
    else
      assert ParentIn(t, n);
      var t1 := t[n := Run(t[n], job)];
      assert forall m {:trigger ParentIn(t1, m)} :: m in t1 ==> ParentIn(t, m) && ParentIn(t1, m);
      if n.Sub? then SetRunning(t1, n.parent, job) else t1
  }

  ghost function SetFailed(t: Tree, n: ChannelPath, job: ChannelJob): Tree
    requires n in t
  {
    if job in t[n].failed then t
    else Remove(t, n, job)[n := Fail(t[n], job)]
  }

  // ---------- The invariant ----------

  // In a channel a job is in at most one of the queues, running and failed. Only jobs of the
  // channel itself can wait for an eta or fail in it.
  ghost predicate LocallySound(n: ChannelPath, ch: Chan) {
    && (forall j :: j in ch.waiting ==> j !in ch.ready && j !in ch.running && j !in ch.failed)
    && (forall j :: j in ch.ready ==> j !in ch.running && j !in ch.failed)
    && (forall j :: j in ch.running ==> j !in ch.failed)
    && (forall j :: j in ch.waiting ==> j.channel == n && ch.waiting[j] != 0.0)
    && (forall j :: j in ch.failed ==> j.channel == n)
    && (forall j :: j in ch.ready ==> Within(n, j.channel))
    && (forall j :: j in ch.running ==> Within(n, j.channel))
  }

  // The running jobs of channel n are exactly the jobs its parent has queued or running that
  // came through n.
  ghost predicate Feeds(n: ChannelPath, child: Chan, parent: Chan) {
    && (forall j :: j in child.running ==> j in parent.ready || j in parent.running)
    && (forall j :: j in parent.ready && Within(n, j.channel) ==> j in child.running)
    && (forall j :: j in parent.running && Within(n, j.channel) ==> j in child.running)
  }

  ghost predicate HomesKnown(names: set<ChannelPath>, ch: Chan) {
    forall j :: j in Held(ch) ==> j.channel in names
  }

  ghost predicate SoundAt(t: Tree, m: ChannelPath)
    requires m in t
  {
    LocallySound(m, t[m]) && HomesKnown(t.Keys, t[m])
  }

  ghost predicate JoinedAt(t: Tree, m: ChannelPath)
    requires m in t && m.Sub? && m.parent in t
  {
    Feeds(m, t[m], t[m.parent])
  }

  // The invariant, with the channels joined at n and above it.
  ghost predicate SoundFrom(t: Tree, n: ChannelPath) {
    && Closed(t)
    && (forall m {:trigger SoundAt(t, m)} :: m in t ==> SoundAt(t, m))
    && (forall m {:trigger JoinedAt(t, m)} :: m in t && m.Sub? && m.parent in t && Within(n, m.parent) ==> JoinedAt(t, m))
  }

  ghost predicate Sound(t: Tree) {
    SoundFrom(t, Root)
  }

  lemma {:induction false} WithinRoot(n: ChannelPath)
    ensures Within(Root, n)
  {
    if n.Sub? { WithinRoot(n.parent); }
  }

  lemma {:induction false} WithinTransitive(a: ChannelPath, b: ChannelPath, c: ChannelPath)
    requires Within(a, b) && Within(b, c)
    ensures Within(a, c)
  {
    if b != c { WithinTransitive(a, b, c.parent); }
  }

  ghost function Depth(n: ChannelPath): nat {
    if n.Root? then 0 else 1 + Depth(n.parent)
  }

  lemma {:induction false} WithinDepth(a: ChannelPath, b: ChannelPath)
    requires Within(a, b)
    ensures Depth(a) <= Depth(b)
    ensures Depth(a) == Depth(b) ==> a == b
  {
    if a != b { WithinDepth(a, b.parent); }
  }

  // Two channels a job flows through are above one another.
  lemma {:induction false} WithinLinear(a: ChannelPath, b: ChannelPath, c: ChannelPath)
    requires Within(a, c) && Within(b, c)
    ensures Within(a, b) || Within(b, a)
  {
    if a != c && b != c { WithinLinear(a, b, c.parent); }
  }

  // Removing at n and then from the parent down is removing from n down.
  lemma RemoveFromParent(t: Tree, n: ChannelPath, ch: Chan, job: ChannelJob)
    requires n in t
    ensures n.Sub? ==> Remove(t[n := ch], n.parent, job) == Remove(t, n, job)[n := ch]
    ensures n.Root? ==> t[n := ch] == Remove(t, n, job)[n := ch]
    ensures Remove(t, n, job)[n := Without(t[n], job)] == Remove(t, n, job)
  {
    if n.Sub? && Within(n, n.parent) {
      WithinDepth(n, n.parent);
    }
  }

  // A job queued or running below its own channel is running in every channel on the way.
  lemma {:induction false} HeldBelow(t: Tree, n: ChannelPath, m: ChannelPath, job: ChannelJob)
    requires Sound(t) && n in t && m in t
    requires Within(n, m) && n != m && Within(m, job.channel)
    requires job in t[n].ready || job in t[n].running
    ensures job in t[m].running
    decreases Depth(m)
  {
    WithinRoot(m.parent);
    assert ParentIn(t, m) && JoinedAt(t, m);
    if m.parent != n {
      WithinTransitive(m.parent, m, job.channel);
      HeldBelow(t, n, m.parent, job);
    }
  }

  // Wherever a job is held below its own channel, it is running in its own channel.
  lemma HeldAtHome(t: Tree, n: ChannelPath, job: ChannelJob)
    requires Sound(t) && n in t && job in Held(t[n])
    ensures job.channel in t && Within(n, job.channel)
    ensures n != job.channel ==> job in t[job.channel].running && (job in t[n].ready || job in t[n].running)
    ensures n != job.channel ==> job !in Queued(t[job.channel]) && job !in t[job.channel].failed
  {
    assert SoundAt(t, n);
    if n != job.channel {
      HeldBelow(t, n, job.channel, job);
      assert SoundAt(t, job.channel);
    }
  }

  lemma {:induction false} RunningInChild(t: Tree, n: ChannelPath, m: ChannelPath, job: ChannelJob)
    requires Sound(t) && n in t && m in t && Within(n, m)
    requires job in t[n].running && Within(m, job.channel)
    ensures job in t[m].running
  {
    if n != m { HeldBelow(t, n, m, job); }
  }

  // A channel on the way of a job that holds it nowhere else than at home.
  ghost predicate OnlyAtHome(t: Tree, job: ChannelJob) {
    forall m :: m in t && m != job.channel ==> job !in Held(t[m])
  }

  lemma NotRunningOnlyAtHome(t: Tree, job: ChannelJob)
    requires Sound(t) && job.channel in t && job !in t[job.channel].running
    ensures OnlyAtHome(t, job)
  {
    forall m | m in t && m != job.channel ensures job !in Held(t[m]) {
      if job in Held(t[m]) { HeldAtHome(t, m, job); }
    }
  }

  lemma WithoutIsSound(n: ChannelPath, ch: Chan, job: ChannelJob)
    requires LocallySound(n, ch)
    ensures LocallySound(n, Without(ch, job)) && Held(Without(ch, job)) == Held(ch) - {job}
    ensures job !in Held(ch) ==> Without(ch, job) == ch
  {
  }

  lemma RunIsSound(n: ChannelPath, ch: Chan, job: ChannelJob)
    requires LocallySound(n, ch) && Within(n, job.channel)
    ensures LocallySound(n, Run(ch, job)) && Held(Run(ch, job)) == Held(ch) + {job}
  {
    WithoutIsSound(n, ch, job);
  }

  lemma EnqueueIsSound(ch: Chan, job: ChannelJob, eta: Time)
    requires LocallySound(job.channel, ch) && job !in Held(ch)
    ensures LocallySound(job.channel, Enqueue(ch, job, eta))
    ensures Held(Enqueue(ch, job, eta)) == Held(ch) + {job} && job in Queued(Enqueue(ch, job, eta))
  {
  }

  lemma WithoutKeepsFeeds(m: ChannelPath, child: Chan, parent: Chan, job: ChannelJob)
    requires Feeds(m, child, parent)
    ensures Feeds(m, Without(child, job), Without(parent, job))
  {
  }

  lemma SameKeysClosed(t: Tree, t': Tree)
    requires Closed(t) && t'.Keys == t.Keys
    ensures Closed(t')
  {
    forall m | m in t' ensures ParentIn(t', m) {
      assert ParentIn(t, m);
    }
  }

  lemma RemoveSound(t: Tree, job: ChannelJob)
    requires Sound(t) && job.channel in t
    ensures Sound(Remove(t, job.channel, job))
    ensures forall n :: n in t ==> Remove(t, job.channel, job)[n] == Without(t[n], job)
  {
    var t' := Remove(t, job.channel, job);
    forall n | n in t
      ensures t'[n] == Without(t[n], job) && SoundAt(t', n)
    {
      assert SoundAt(t, n);
      WithoutIsSound(n, t[n], job);
      if job in Held(t[n]) {
        HeldAtHome(t, n, job);
      }
    }
    SameKeysClosed(t, t');
    forall m | m in t' && m.Sub? && m.parent in t' && Within(Root, m.parent) ensures JoinedAt(t', m) {
      assert JoinedAt(t, m);
      WithoutKeepsFeeds(m, t[m], t[m.parent], job);
    }
  }

  // Changing only the queues and the failed set of a job's own channel, for a job that is held
  // nowhere, keeps the invariant.
  lemma PlacedAtHomeSound(t: Tree, t': Tree, job: ChannelJob)
    requires Sound(t) && job.channel in t
    requires OnlyAtHome(t, job) && job !in Held(t[job.channel])
    requires t'.Keys == t.Keys && forall m :: m in t && m != job.channel ==> t'[m] == t[m]
    requires t'[job.channel].running == t[job.channel].running
    requires LocallySound(job.channel, t'[job.channel])
    requires Held(t'[job.channel]) == Held(t[job.channel]) + {job}
    requires t'[job.channel].ready == t[job.channel].ready || t'[job.channel].ready == t[job.channel].ready + {job}
    ensures Sound(t') && OnlyAtHome(t', job)
  {
    var n := job.channel;
    SameKeysClosed(t, t');
    forall m | m in t' ensures SoundAt(t', m) {
      assert SoundAt(t, m);
    }
    forall m | m in t' && m.Sub? && m.parent in t' && Within(Root, m.parent) ensures JoinedAt(t', m) {
      assert JoinedAt(t, m);
      hide LocallySound, OnlyAtHome, Held;
      PlacedAtHomeJoined(t, t', job, m);
    }
  }

  lemma PlacedAtHomeJoined(t: Tree, t': Tree, job: ChannelJob, m: ChannelPath)
    requires m in t && m.Sub? && m.parent in t && JoinedAt(t, m) && job.channel in t && t'.Keys == t.Keys
    requires forall k :: k in t && k != job.channel ==> t'[k] == t[k]
    requires t'[job.channel].running == t[job.channel].running
    requires t'[job.channel].ready == t[job.channel].ready || t'[job.channel].ready == t[job.channel].ready + {job}
    ensures JoinedAt(t', m)
  {
    if m.parent == job.channel && Within(m, job.channel) {
      WithinDepth(m, job.channel);
    }
  }

  lemma SetPendingSound(t: Tree, job: ChannelJob, eta: Time)
    requires Sound(t) && job.channel in t
    ensures Sound(SetPending(t, job.channel, job, eta)) && OnlyAtHome(SetPending(t, job.channel, job, eta), job)
    ensures job in Queued(SetPending(t, job.channel, job, eta)[job.channel])
  {
    var n := job.channel;
    assert SoundAt(t, n);
    if job in Queued(t[n]) {
      NotRunningOnlyAtHome(t, job);
    } else {
      RemoveSound(t, job);
      var t0, t' := Remove(t, n, job), SetPending(t, n, job, eta);
      WithoutIsSound(n, t[n], job);
      EnqueueIsSound(t0[n], job, eta);
      PlacedAtHomeSound(t0, t', job);
    }
  }

  lemma SetFailedSound(t: Tree, job: ChannelJob)
    requires Sound(t) && job.channel in t
    ensures Sound(SetFailed(t, job.channel, job)) && OnlyAtHome(SetFailed(t, job.channel, job), job)
    ensures job in SetFailed(t, job.channel, job)[job.channel].failed
  {
    var n := job.channel;
    assert SoundAt(t, n);
    if job in t[n].failed {
      NotRunningOnlyAtHome(t, job);
    } else {
      RemoveSound(t, job);
      FailIsSound(t[n], job);
      var t0, t' := Remove(t, n, job), SetFailed(t, n, job);
      hide Remove, Fail, Without, Held, Queued, LocallySound, Sound, SoundFrom, OnlyAtHome;
      NotRunningOnlyAtHome(t0, job);
      PlacedAtHomeSound(t0, t', job);
    }
  }

  lemma FailIsSound(ch: Chan, job: ChannelJob)
    requires LocallySound(job.channel, ch)
    ensures var ch0, ch' := Without(ch, job), Fail(ch, job);
      && job !in Held(ch0) && job !in ch0.running && ch'.running == ch0.running && ch'.ready == ch0.ready
      && LocallySound(job.channel, ch') && Held(ch') == Held(ch0) + {job} && job in ch'.failed
  {
  }

  // A job runs in all channels on its path.
  ghost function RunFrom(t: Tree, n: ChannelPath, job: ChannelJob): Tree {
    map m | m in t :: if Within(m, n) then Run(t[m], job) else t[m]
  }

  lemma {:induction false} SetRunningIsRunFrom(t: Tree, n: ChannelPath, job: ChannelJob)
    requires Closed(t) && n in t
    requires forall m :: m in t && Within(m, n) ==> job !in t[m].running
    ensures SetRunning(t, n, job) == RunFrom(t, n, job)
    decreases n
  {
    var t1 := t[n := Run(t[n], job)];
    SameKeysClosed(t, t1);
    assert ParentIn(t, n);
    if n.Sub? {
      forall m | m in t1 && Within(m, n.parent) ensures job !in t1[m].running && m != n {
        WithinDepth(m, n.parent);
      }
      SetRunningIsRunFrom(t1, n.parent, job);
      assert forall m :: m in t ==> (Within(m, n) <==> m == n || Within(m, n.parent));
    }
  }

  lemma RunKeepsFeeds(m: ChannelPath, child: Chan, parent: Chan, job: ChannelJob)
    requires Feeds(m, child, parent)
    ensures Feeds(m, Run(child, job), Run(parent, job))
    ensures job !in child.running && !Within(m, job.channel) ==> Feeds(m, child, Run(parent, job))
  {
  }

  lemma RunFromSound(t: Tree, job: ChannelJob)
    requires Sound(t) && job.channel in t
    ensures Sound(RunFrom(t, job.channel, job))
  {
    var n, t' := job.channel, RunFrom(t, job.channel, job);
    forall m | m in t' ensures SoundAt(t', m) {
      assert SoundAt(t, m);
      if Within(m, n) { RunIsSound(m, t[m], job); }
    }
    SameKeysClosed(t, t');
    forall m | m in t' && m.Sub? && m.parent in t' && Within(Root, m.parent) ensures JoinedAt(t', m) {
      assert JoinedAt(t, m);
      RunKeepsFeeds(m, t[m], t[m.parent], job);
      assert Within(m.parent, m);
      if Within(m, n) {
        WithinTransitive(m.parent, m, n);
      }
    }
  }

  lemma SetRunningSound(t: Tree, job: ChannelJob)
    requires Sound(t) && job.channel in t
    ensures Sound(SetRunning(t, job.channel, job))
    ensures job in t[job.channel].running ==> SetRunning(t, job.channel, job) == t
    ensures job !in t[job.channel].running ==> SetRunning(t, job.channel, job) == RunFrom(t, job.channel, job)
  {
    if job !in t[job.channel].running {
      NotRunningOnlyAtHome(t, job);
      forall m | m in t ensures job !in t[m].running {
        assert m != job.channel ==> job !in Held(t[m]);
      }
      SetRunningIsRunFrom(t, job.channel, job);
      RunFromSound(t, job);
    }
  }

  // ---------- New channels ----------

  ghost function EmptyChan(capacity: int): Chan {
    Chan(capacity, false, 0, map[], {}, {}, {}, 0.0)
  }

  // No job belongs to a channel that does not exist, so that a new channel feeds its parent.
  lemma EmptyFeeds(t: Tree, n: ChannelPath, capacity: int)
    requires Sound(t) && n.Sub? && n.parent in t && n !in t
    ensures Feeds(n, EmptyChan(capacity), t[n.parent])
  {
    assert SoundAt(t, n.parent);
    forall j | j in Held(t[n.parent]) ensures !Within(n, j.channel) {
      if Within(n, j.channel) { AncestorExists(t, n, j.channel); }
    }
  }

  lemma {:induction false} AncestorExists(t: Tree, n: ChannelPath, m: ChannelPath)
    requires Closed(t) && m in t && Within(n, m)
    ensures n in t
  {
    assert ParentIn(t, m);
    if n != m { AncestorExists(t, n, m.parent); }
  }

  // A new channel keeps the invariant.
  lemma AddChannelSound(t: Tree, n: ChannelPath, capacity: int)
    requires Sound(t) && n.Sub? && n.parent in t && n !in t
    ensures Sound(t[n := EmptyChan(capacity)])
  {
    var t' := t[n := EmptyChan(capacity)];
    forall m | m in t' ensures ParentIn(t', m) && SoundAt(t', m) {
      if m != n { assert ParentIn(t, m) && SoundAt(t, m); }
    }
    forall m | m in t' && m.Sub? && m.parent in t' && Within(Root, m.parent) ensures JoinedAt(t', m) {
      if m == n {
        EmptyFeeds(t, n, capacity);
      } else {
        assert ParentIn(t, m) && JoinedAt(t, m);
      }
    }
  }
}
