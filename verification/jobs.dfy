// The job object that workers, users and graphs of delayed jobs handle, and the table it is
// loaded from and stored in.
module Jobs {
  import opened ChannelJobs
  import opened JobStates
  import opened JobRows

  const RETRY_INTERVAL := 10 * 60

  // A number of seconds, or any number from an interval.
  datatype Range = Fixed(seconds: int) | Between(low: int, high: int)

  type Seconds = r: Range | r.Between? ==> r.low <= r.high witness Fixed(0)

  predicate InRange(r: Seconds, d: int) {
    match r
    case Fixed(seconds) => d == seconds
    case Between(low, high) => low <= d <= high
  }

  // A number of 0 seconds counts as not given, an interval is always given.
  predicate Given(seconds: Option<Seconds>) {
    seconds.Some? && seconds.value != Fixed(0)
  }

  datatype Option<T> = None | Some(value: T)

  function UuidsOf(jobs: set<Job>): set<Uuid> {
    set j | j in jobs :: j.uuid
  }

  ghost predicate AllJobsDone(jobs: set<Job>)
    reads jobs
  {
    forall j :: j in jobs ==> j.state.Done?
  }

  // ---------- Retry patterns ----------

  // k is the largest number of retries of the pattern that is not above retry.
  ghost predicate AppliesAt(pattern: map<nat, Seconds>, retry: nat, k: nat) {
    k in pattern && k <= retry && forall l :: l in pattern && l <= retry ==> l <= k
  }

  ghost predicate IsSorted(patt: seq<(nat, Seconds)>) {
    forall i, k :: 0 <= i < k < |patt| ==> patt[i].0 < patt[k].0
  }

  ghost predicate IsItems(pattern: map<nat, Seconds>, patt: seq<(nat, Seconds)>) {
    && (forall i :: 0 <= i < |patt| ==> patt[i].0 in pattern && patt[i].1 == pattern[patt[i].0])
    && (forall k :: k in pattern ==> exists i :: 0 <= i < |patt| && patt[i].0 == k)
  }

  lemma {:induction false} LeastOf(keys: set<nat>, first: nat) returns (least: nat)
    requires first in keys
    ensures least in keys && forall k :: k in keys ==> least <= k
  {
    var rest := keys - {first};
    if second :| second in rest {
      var other := LeastOf(rest, second);
      least := if other < first then other else first;
    } else {
      least := first;
    }
    assert forall k :: k in keys ==> k == first || k in rest;
  }

  lemma HasLeast(keys: set<nat>, first: nat)
    requires first in keys
    ensures exists k :: k in keys && IsLeast(keys, k)
  {
    var least := LeastOf(keys, first);
    assert IsLeast(keys, least);
  }

  predicate IsLeast(keys: set<nat>, k: nat) {
    forall l :: l in keys ==> k <= l
  }

  // The items of the pattern with a key not in rest, which are the first ones.
  ghost predicate FirstItems(pattern: map<nat, Seconds>, patt: seq<(nat, Seconds)>, rest: set<nat>) {
    && IsSorted(patt) && rest <= pattern.Keys
    && (forall i :: 0 <= i < |patt| ==> patt[i].0 in pattern && patt[i].1 == pattern[patt[i].0])
    && (forall i, k :: 0 <= i < |patt| && k in rest ==> patt[i].0 < k)
    && (forall k :: k in pattern && k !in rest ==> exists i :: 0 <= i < |patt| && patt[i].0 == k)
  }

  lemma OneMoreItem(pattern: map<nat, Seconds>, patt: seq<(nat, Seconds)>, rest: set<nat>, k: nat)
    requires FirstItems(pattern, patt, rest) && k in rest && IsLeast(rest, k)
    ensures FirstItems(pattern, patt + [(k, pattern[k])], rest - {k})
  {
    var more := patt + [(k, pattern[k])];
    forall l | l in pattern && l !in rest - {k} ensures exists i :: 0 <= i < |more| && more[i].0 == l {
      if l == k {
        assert more[|patt|].0 == l;
      } else {
        var i :| 0 <= i < |patt| && patt[i].0 == l;
        assert more[i].0 == l;
      }
    }
  }

  // The items of the pattern by rising number of retries.
  method SortedItems(pattern: map<nat, Seconds>) returns (patt: seq<(nat, Seconds)>)
    ensures IsSorted(patt) && IsItems(pattern, patt)
  {
    patt := [];
    var rest := pattern.Keys;
    while rest != {}
      invariant FirstItems(pattern, patt, rest)
      decreases rest
    {
      ghost var first :| first in rest;
      HasLeast(rest, first);
      var k :| k in rest && IsLeast(rest, k);
      OneMoreItem(pattern, patt, rest, k);
      patt := patt + [(k, pattern[k])];
      rest := rest - {k};
    }
  }

  // The seconds given with the error, or those of the pattern that apply, or the default.
  method GetRetrySeconds(retry: nat, seconds: Option<Seconds>, pattern: map<nat, Seconds>) returns (r: Seconds)
    ensures seconds.Some? && seconds.value != Fixed(0) ==> r == seconds.value
    ensures seconds.None? || seconds.value == Fixed(0) ==>
      && (forall k :: AppliesAt(pattern, retry, k) ==> r == pattern[k])
      && ((forall k :: k in pattern ==> retry < k) ==> r == Fixed(600))
  {
    if Given(seconds) {
      return seconds.value;
    }
    r := Fixed(RETRY_INTERVAL);
    var patt := SortedItems(pattern);
    var n := 0;
    while n < |patt| && retry >= patt[n].0
      invariant 0 <= n <= |patt|
      invariant n == 0 ==> r == Fixed(RETRY_INTERVAL)
      invariant n > 0 ==> patt[n - 1].0 <= retry && r == patt[n - 1].1
    {
      r := patt[n].1;
      n := n + 1;
    }
    forall k | AppliesAt(pattern, retry, k) ensures r == pattern[k] {
      var i :| 0 <= i < |patt| && patt[i].0 == k;
      assert i < n;
      assert patt[n - 1].0 in pattern;
    }
  }

  // Some entry of the pattern applies, and only one, unless all of them need more retries.
  lemma OneApplies(pattern: map<nat, Seconds>, retry: nat)
    ensures (exists k :: AppliesAt(pattern, retry, k)) <==> !(forall k :: k in pattern ==> retry < k)
    ensures forall k, l :: AppliesAt(pattern, retry, k) && AppliesAt(pattern, retry, l) ==> k == l
  {
    var above := set k | k in pattern && k <= retry :: retry - k;
    if k :| k in pattern && k <= retry {
      assert retry - k in above;
      var least := LeastOf(above, retry - k);
      assert AppliesAt(pattern, retry, retry - least) by {
        forall l | l in pattern && l <= retry ensures l <= retry - least {
          assert retry - l in above;
        }
      }
    }
  }

  // ---------- Jobs ----------

  class Job {
    const uuid: Uuid
    const maxRetries: nat
    var state: JobState
    var retry: nat
    var graphUuid: nat
    var eta: Time
    // The uuids of the related jobs, and the jobs themselves once they were loaded.
    var dependsOnUuids: set<Uuid>
    var reverseDependsOnUuids: set<Uuid>
    var dependsOn: set<Job>
    var reverseDependsOn: set<Job>

    constructor (uuid: Uuid, maxRetries: nat)
      ensures this.uuid == uuid && AsRow() == Row(JobState.Pending, 0, maxRetries, {}, {}, 0)
      ensures dependsOn == {} && reverseDependsOn == {} && eta == 0.0
    {
      this.uuid, this.maxRetries := uuid, maxRetries;
      state, retry, graphUuid, eta := JobState.Pending, 0, 0, 0.0;
      dependsOnUuids, reverseDependsOnUuids, dependsOn, reverseDependsOn := {}, {}, {}, {};
    }

    // What is stored of the job.
    function AsRow(): Row
      reads this
    {
      Row(state, retry, maxRetries, dependsOnUuids, reverseDependsOnUuids, graphUuid)
    }

    // The job waits for its parents unless all of them are done. It cannot depend on itself.
    method AddDepends(jobs: set<Job>) returns (ok: bool)
      modifies this, jobs`reverseDependsOn, jobs`reverseDependsOnUuids
      ensures ok <==> forall j :: j in jobs ==> j.uuid != uuid
      ensures !ok ==> unchanged(this) && unchanged(jobs)
      ensures ok ==> AsRow() == old(AsRow()).(
          dependsOn := old(dependsOnUuids) + UuidsOf(jobs),
          state := if AllJobsDone(jobs) then old(state) else WaitDependencies)
      ensures ok ==> dependsOn == old(dependsOn) + jobs && eta == old(eta) && reverseDependsOn == old(reverseDependsOn)
      ensures ok ==> forall p :: p in jobs ==>
          p.reverseDependsOnUuids == old(p.reverseDependsOnUuids) + {uuid} && p.reverseDependsOn == old(p.reverseDependsOn) + {this}
    {
      if j :| j in jobs && j.uuid == uuid {
        return false;
      }
      ok := true;
      assert this !in jobs;
      dependsOnUuids := dependsOnUuids + UuidsOf(jobs);
      dependsOn := dependsOn + jobs;
      var rest := jobs;
      while rest != {}
        modifies jobs`reverseDependsOn, jobs`reverseDependsOnUuids
        invariant rest <= jobs
        invariant forall p :: p in jobs - rest ==>
            p.reverseDependsOnUuids == old(p.reverseDependsOnUuids) + {uuid} && p.reverseDependsOn == old(p.reverseDependsOn) + {this}
        invariant forall p :: p in rest ==>
            p.reverseDependsOnUuids == old(p.reverseDependsOnUuids) && p.reverseDependsOn == old(p.reverseDependsOn)
        invariant reverseDependsOn == old(reverseDependsOn) && reverseDependsOnUuids == old(reverseDependsOnUuids)
        decreases rest
      {
        var parent :| parent in rest;
        parent.reverseDependsOnUuids := parent.reverseDependsOnUuids + {uuid};
        parent.reverseDependsOn := parent.reverseDependsOn + {this};
        rest := rest - {parent};
      }
      if j :| j in jobs && !j.state.Done? {
        state := WaitDependencies;
      }
    }

    // The parents, loaded at the first use and kept from then on.
    method DependsOn(table: JobTable) returns (jobs: set<Job>)
      modifies this`dependsOn
      ensures jobs == dependsOn && (old(dependsOn) != {} ==> jobs == old(dependsOn))
      ensures old(dependsOn) == {} ==> fresh(jobs) && table.AreLoaded(dependsOnUuids, jobs)
    {
      if dependsOn == {} {
        dependsOn := table.LoadMany(dependsOnUuids);
      }
      jobs := dependsOn;
    }

    // Whether all parents were done when they were loaded.
    method ParentsDone(table: JobTable) returns (done: bool)
      requires this !in dependsOn
      modifies this`dependsOn
      ensures this !in dependsOn && (done <==> AllJobsDone(dependsOn))
      ensures old(dependsOn) != {} ==> dependsOn == old(dependsOn)
      ensures old(dependsOn) == {} ==> fresh(dependsOn) && UuidsOf(dependsOn) == dependsOnUuids * table.rows.Keys
      ensures old(dependsOn) == {} ==> (done <==> AllDone(table.rows, dependsOnUuids))
    {
      var parents := DependsOn(table);
      table.LoadedDone(dependsOnUuids, parents);
      table.LoadedUuids(dependsOnUuids, parents);
      done := forall j :: j in parents ==> j.state.Done?;
    }

    // The states of the parents are those that were found when they were first loaded.
    method SetPending(table: JobTable, resetRetry: bool)
      requires this !in dependsOn
      modifies this
      ensures AsRow() == old(AsRow()).(
          state := PendingState(AllJobsDone(dependsOn)), retry := if resetRetry then 0 else old(retry))
      ensures eta == old(eta) && reverseDependsOn == old(reverseDependsOn)
      ensures old(dependsOn) != {} ==> dependsOn == old(dependsOn)
      ensures old(dependsOn) == {} ==> fresh(dependsOn) && UuidsOf(dependsOn) == dependsOnUuids * table.rows.Keys
      ensures old(dependsOn) == {} ==> (AllJobsDone(dependsOn) <==> AllDone(table.rows, old(dependsOnUuids)))
    {
      hide UuidsOf, AllDone;
      var done := ParentsDone(table);
      state := if done then JobState.Pending else WaitDependencies;
      if resetRetry {
        retry := 0;
      }
    }

    method SetEnqueued()
      modifies this`state
      ensures AsRow() == old(AsRow()).(state := JobState.Enqueued)
    {
      state := JobState.Enqueued;
    }

    method SetStarted()
      modifies this`state
      ensures AsRow() == old(AsRow()).(state := Started)
    {
      state := Started;
    }

    method SetDone()
      modifies this`state
      ensures AsRow() == old(AsRow()).(state := Done)
    {
      state := Done;
    }

    method SetCancelled()
      modifies this`state
      ensures AsRow() == old(AsRow()).(state := JobState.Cancelled)
    {
      state := JobState.Cancelled;
    }

    method SetFailed()
      modifies this`state
      ensures AsRow() == old(AsRow()).(state := JobState.Failed)
    {
      state := JobState.Failed;
    }

    // Performs the job, of which the function behaves as `outcome` says.
    method Perform(outcome: Outcome) returns (verdict: Verdict)
      modifies this`retry
      ensures (retry, verdict) == JobRows.Performed(old(retry), maxRetries, outcome)
      ensures retry == if outcome == Retryable(true) then old(retry) else old(retry) + 1
      ensures verdict.Finished? <==> outcome.Success? || outcome.NothingToDo?
      ensures verdict.Broken? <==> outcome.Error? || (outcome == Retryable(false) && 0 < maxRetries <= old(retry) + 1)
    {
      retry := retry + 1;
      match outcome
      case Success => verdict := Finished;
      case NothingToDo => verdict := Finished;
      case ConcurrencyError => verdict := Postponed;
      case Error => verdict := Broken;
      case Retryable(ignoreRetry) =>
        verdict := Postponed;
        if ignoreRetry {
          retry := retry - 1;
        } else if maxRetries != 0 && retry >= maxRetries {
          verdict := Broken;
        }
    }

    // Sets the eta to some seconds after now.
    method Postpone(now: Time, seconds: Option<Seconds>, pattern: map<nat, Seconds>)
      modifies this`eta
      ensures Delayed(eta, retry, now, seconds, pattern)
    {
      var range := GetRetrySeconds(retry, seconds, pattern);
      var least := if range.Fixed? then range.seconds else range.low;
      assert InRange(range, least);
      var d: int :| InRange(range, d);
      eta := now + d as real;
      RangeWaits(retry, seconds, pattern, range, d);
    }

    method ReverseDependsOn(table: JobTable) returns (jobs: set<Job>)
      modifies this`reverseDependsOn
      ensures jobs == reverseDependsOn && (old(reverseDependsOn) != {} ==> jobs == old(reverseDependsOn))
      ensures old(reverseDependsOn) == {} ==> fresh(jobs) && table.AreLoaded(reverseDependsOnUuids, jobs)
    {
      if reverseDependsOn == {} {
        reverseDependsOn := table.LoadMany(reverseDependsOnUuids);
      }
      jobs := reverseDependsOn;
    }

    // The dependencies are stored as the uuids of the related jobs that were found.
    method Store(table: JobTable)
      modifies this`dependsOn, this`reverseDependsOn, table`rows
      ensures table.rows == old(table.rows)[uuid := old(AsRow()).(
          dependsOn := UuidsOf(dependsOn), reverseDependsOn := UuidsOf(reverseDependsOn))]
      ensures old(dependsOn) != {} ==> dependsOn == old(dependsOn)
      ensures old(reverseDependsOn) != {} ==> reverseDependsOn == old(reverseDependsOn)
      ensures old(dependsOn) == {} ==> fresh(dependsOn) && UuidsOf(dependsOn) == dependsOnUuids * old(table.rows).Keys
      ensures old(dependsOn) == {} ==> (AllJobsDone(dependsOn) <==> AllDone(old(table.rows), dependsOnUuids))
      ensures old(reverseDependsOn) == {} ==> UuidsOf(reverseDependsOn) == reverseDependsOnUuids * old(table.rows).Keys
    {
      var parents := DependsOn(table);
      var children := ReverseDependsOn(table);
      table.LoadedDone(dependsOnUuids, parents);
      table.LoadedUuids(dependsOnUuids, parents);
      table.LoadedUuids(reverseDependsOnUuids, children);
      table.rows := table.rows[uuid := AsRow().(dependsOn := UuidsOf(parents), reverseDependsOn := UuidsOf(children))];
    }
  }

  // The eta is as many seconds from now as the number of retries asks for.
  ghost predicate Delayed(eta: Time, retry: nat, now: Time, seconds: Option<Seconds>, pattern: map<nat, Seconds>) {
    exists d: int :: eta == now + d as real && Waits(retry, seconds, pattern, d)
  }

  // d is a number of seconds after which a job with this number of retries may be retried.
  ghost predicate Waits(retry: nat, seconds: Option<Seconds>, pattern: map<nat, Seconds>, d: int) {
    if Given(seconds) then InRange(seconds.value, d)
    else if k :| AppliesAt(pattern, retry, k) then InRange(pattern[k], d)
    else d == RETRY_INTERVAL
  }

  lemma RangeWaits(retry: nat, seconds: Option<Seconds>, pattern: map<nat, Seconds>, range: Seconds, d: int)
    requires InRange(range, d) && (Given(seconds) ==> range == seconds.value)
    requires !Given(seconds) ==>
      && (forall k :: AppliesAt(pattern, retry, k) ==> range == pattern[k])
      && ((forall k :: k in pattern ==> retry < k) ==> range == Fixed(RETRY_INTERVAL))
    ensures Waits(retry, seconds, pattern, d)
  {
    OneApplies(pattern, retry);
  }

  class JobTable {
    var rows: Rows

    ghost predicate AreLoaded(uuids: set<Uuid>, jobs: set<Job>)
      reads this, jobs
    {
      && (forall j :: j in jobs ==> j.uuid in uuids && j.uuid in rows && j.AsRow() == rows[j.uuid])
      && (forall u :: u in uuids && u in rows ==> exists j :: j in jobs && j.uuid == u)
    }

    lemma LoadedDone(uuids: set<Uuid>, jobs: set<Job>)
      ensures AreLoaded(uuids, jobs) ==> (AllJobsDone(jobs) <==> AllDone(rows, uuids))
    {
    }

    lemma LoadedUuids(uuids: set<Uuid>, jobs: set<Job>)
      ensures AreLoaded(uuids, jobs) ==> UuidsOf(jobs) == uuids * rows.Keys
    {
      if AreLoaded(uuids, jobs) {
        forall u | u in uuids * rows.Keys ensures u in UuidsOf(jobs) {
          var j :| j in jobs && j.uuid == u;
        }
      }
    }

    method Load(uuid: Uuid) returns (job: Job?)
      ensures uuid !in rows ==> job == null
      ensures uuid in rows ==> job != null && fresh(job) && job.uuid == uuid && job.AsRow() == rows[uuid]
      ensures uuid in rows ==> job.dependsOn == {} && job.reverseDependsOn == {}
    {
      if uuid !in rows {
        return null;
      }
      var row := rows[uuid];
      job := new Job(uuid, row.maxRetries);
      job.state, job.retry, job.graphUuid := row.state, row.retry, row.graph;
      job.dependsOnUuids, job.reverseDependsOnUuids := row.dependsOn, row.reverseDependsOn;
    }

    // Jobs that are not stored are ignored.
    method LoadMany(uuids: set<Uuid>) returns (jobs: set<Job>)
      ensures fresh(jobs) && AreLoaded(uuids, jobs)
    {
      jobs := {};
      var rest := uuids;
      while rest != {}
        invariant rest <= uuids && fresh(jobs)
        invariant AreLoaded(uuids - rest, jobs)
        decreases rest
      {
        var u :| u in rest;
        var job := Load(u);
        if job != null {
          jobs := jobs + {job};
        }
        rest := rest - {u};
      }
      assert uuids - rest == uuids;
    }
  }
}
