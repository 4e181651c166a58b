// The binary heap that a priority queue is built on, and the queue that supports removing
// arbitrary jobs by marking them and skipping them later.
module PriorityQueues {
  import opened ChannelJobs

  function Up(i: int): int {
    (i - 1) / 2
  }

  // The job at i is not smaller than the one above it.
  ghost predicate InOrder(h: seq<ChannelJob>, i: int)
    requires 1 <= i < |h|
    reads h
  {
    Leq(h[Up(i)], h[i])
  }

  ghost predicate IsHeap(h: seq<ChannelJob>)
    reads h
  {
    forall i :: 1 <= i < |h| ==> InOrder(h, i)
  }

  // No job directly below pos is smaller than the one directly above pos.
  ghost predicate Bridged(h: seq<ChannelJob>, pos: int)
    requires 0 <= pos < |h|
    reads h
  {
    pos > 0 ==> forall i :: 1 <= i < |h| && Up(i) == pos ==> Leq(h[Up(pos)], h[i])
  }

  // h is a heap except that h[pos] may be smaller than its ancestors.
  ghost predicate HeapButRising(h: seq<ChannelJob>, pos: int)
    requires 0 <= pos < |h|
    reads h
  {
    Bridged(h, pos) && forall i :: 1 <= i < |h| && i != pos ==> InOrder(h, i)
  }

  // h is a heap except that h[pos] may be out of order with its parent and its children.
  ghost predicate HeapButAt(h: seq<ChannelJob>, pos: int)
    requires 0 <= pos < |h|
    reads h
  {
    Bridged(h, pos) && forall i :: 1 <= i < |h| && i != pos && Up(i) != pos ==> InOrder(h, i)
  }

  lemma {:induction false} RootIsMinimal(h: seq<ChannelJob>, i: nat)
    requires IsHeap(h) && i < |h|
    ensures Leq(h[0], h[i])
  {
    if i > 0 {
      RootIsMinimal(h, Up(i));
      assert InOrder(h, i);
      LeqTransitive(h[0], h[Up(i)], h[i]);
    }
  }

  function Swap(h: seq<ChannelJob>, i: nat, j: nat): (r: seq<ChannelJob>)
    requires i < |h| && j < |h|
    ensures |r| == |h| && r[i] == h[j] && r[j] == h[i]
    ensures forall k :: 0 <= k < |h| && k != i && k != j ==> r[k] == h[k]
    ensures multiset(r) == multiset(h)
  {
    h[i := h[j]][j := h[i]]
  }

  lemma RisingStep(h: seq<ChannelJob>, pos: nat)
    requires 1 <= pos < |h| && HeapButRising(h, pos)
    requires Less(h[pos], h[Up(pos)])
    ensures HeapButRising(Swap(h, pos, Up(pos)), Up(pos))
  {
    var up, h' := Up(pos), Swap(h, pos, Up(pos));
    forall i | 1 <= i < |h'| && i != up
      ensures InOrder(h', i)
    {
      if i != pos {
        assert InOrder(h, i);
        if Up(i) == up {
          LeqTransitive(h[pos], h[up], h[i]);
        }
      }
    }
    if up > 0 {
      assert InOrder(h, up);
      forall i | 1 <= i < |h'| && Up(i) == up
        ensures Leq(h'[Up(up)], h'[i])
      {
        if i != pos {
          assert InOrder(h, i);
          LeqTransitive(h[Up(up)], h[up], h[i]);
        }
      }
    }
  }

  // Moves the job at `start` up until its parent is not greater.
  method SiftTowardsRoot(h0: seq<ChannelJob>, start: nat) returns (h: seq<ChannelJob>)
    requires start < |h0| && HeapButRising(h0, start)
    ensures IsHeap(h) && multiset(h) == multiset(h0) && |h| == |h0|
  {
    h := h0;
    var pos := start;
    while pos > 0
      invariant 0 <= pos < |h| == |h0|
      invariant HeapButRising(h, pos)
      invariant multiset(h) == multiset(h0)
    {
      if !Less(h[pos], h[Up(pos)]) {
        break;
      }
      RisingStep(h, pos);
      h := Swap(h, pos, Up(pos));
      pos := Up(pos);
    }
  }

  lemma SinkingStep(h: seq<ChannelJob>, pos: nat, child: nat)
    requires pos < |h| && HeapButAt(h, pos)
    requires 1 <= child < |h| && Up(child) == pos
    requires forall i :: 1 <= i < |h| && Up(i) == pos ==> Leq(h[child], h[i])
    ensures HeapButAt(Swap(h, pos, child), child)
  {
    var h' := Swap(h, pos, child);
    forall i | 1 <= i < |h'| && i != child && Up(i) != child
      ensures InOrder(h', i)
    {
      if i != pos && Up(i) != pos {
        assert InOrder(h, i);
      }
    }
    forall i | 1 <= i < |h'| && Up(i) == child
      ensures Leq(h'[Up(child)], h'[i])
    {
      assert InOrder(h, i);
    }
  }

  // The smaller of the two children of pos.
  method SmallerChild(h: seq<ChannelJob>, pos: nat) returns (child: nat)
    requires 2 * pos + 1 < |h|
    ensures 1 <= child < |h| && Up(child) == pos
    ensures forall i :: 1 <= i < |h| && Up(i) == pos ==> Leq(h[child], h[i])
  {
    child := 2 * pos + 1;
    var right := child + 1;
    if right < |h| && !Less(h[child], h[right]) {
      child := right;
    }
  }

  // Moves the smaller child up into the place of the job at the root until it is at a leaf.
  method SinkToLeaf(h0: seq<ChannelJob>) returns (h: seq<ChannelJob>, pos: nat)
    requires |h0| > 0 && HeapButAt(h0, 0)
    ensures pos < |h| == |h0| && HeapButRising(h, pos) && multiset(h) == multiset(h0)
  {
    h := h0;
    pos := 0;
    while 2 * pos + 1 < |h|
      invariant 0 <= pos < |h| == |h0|
      invariant HeapButAt(h, pos)
      invariant multiset(h) == multiset(h0)
      decreases |h| - pos
    {
      var child := SmallerChild(h, pos);
      SinkingStep(h, pos, child);
      h := Swap(h, pos, child);
      pos := child;
    }
    forall i | 1 <= i < |h| && i != pos
      ensures InOrder(h, i)
    {
      assert Up(i) != pos;
    }
  }

  method HeapPush(h0: seq<ChannelJob>, job: ChannelJob) returns (h: seq<ChannelJob>)
    requires IsHeap(h0)
    ensures IsHeap(h) && multiset(h) == multiset(h0) + multiset{job}
  {
    h := h0 + [job];
    forall i | 1 <= i < |h| && i != |h0|
      ensures InOrder(h, i)
    {
      assert InOrder(h0, i);
    }
    h := SiftTowardsRoot(h, |h| - 1);
  }

  method HeapPop(h0: seq<ChannelJob>) returns (job: ChannelJob, h: seq<ChannelJob>)
    requires IsHeap(h0) && |h0| > 0
    ensures job == h0[0] && IsHeap(h) && |h| == |h0| - 1
    ensures multiset(h) == multiset(h0) - multiset{job}
  {
    job := h0[0];
    var last := h0[|h0| - 1];
    h := h0[..|h0| - 1];
    assert h0 == h + [last];
    forall i | 1 <= i < |h|
      ensures InOrder(h, i)
    {
      assert InOrder(h0, i);
    }
    if |h| > 0 {
      ReplaceFirst(h, last);
      forall i | 1 <= i < |h| && Up(i) != 0
        ensures InOrder(h[0 := last], i)
      {
        assert InOrder(h, i);
      }
      h := h[0 := last];
      var pos: nat;
      h, pos := SinkToLeaf(h);
      h := SiftTowardsRoot(h, pos);
    }
  }

  lemma ReplaceFirst(h: seq<ChannelJob>, last: ChannelJob)
    requires |h| > 0
    ensures multiset(h[0 := last]) == multiset(h + [last]) - multiset{h[0]}
  {
  }

  class PriorityQueue {
    var heap: seq<ChannelJob>
    var known: set<ChannelJob>    // all jobs in the heap, including the removed ones
    var removed: set<ChannelJob>  // jobs that have been removed but are still in the heap

    // The heap holds each known job exactly once.
    ghost predicate Valid()
      reads this, heap
    {
      IsHeap(heap) && multiset(heap) == multiset(known) && removed <= known
    }

    // What the queue means: a plain set of jobs.
    ghost function Contents(): set<ChannelJob>
      reads this
    {
      known - removed
    }

    constructor ()
      ensures Valid() && heap == [] && known == {} && Contents() == {}
    {
      heap, known, removed := [], {}, {};
    }

    method Length() returns (n: int)
      requires Valid()
      ensures n == |Contents()|
    {
      n := |known| - |removed|;
      CountDifference(known, removed);
    }

    method Contains(job: ChannelJob) returns (b: bool)
      ensures b == (job in Contents())
    {
      b := job in known && job !in removed;
    }

    method Add(job: ChannelJob)
      requires Valid()
      modifies this
      ensures Valid() && known == old(known) + {job}
      ensures Contents() == old(Contents()) + {job}
    {
      removed := removed - {job};
      if job in known {
        return;
      }
      HeapElements(this);
      known := known + {job};
      heap := HeapPush(heap, job);
      assert multiset(known) == multiset(old(known)) + multiset{job};
    }

    method Remove(job: ChannelJob)
      requires Valid()
      modifies this
      ensures Valid() && known == old(known)
      ensures Contents() == old(Contents()) - {job}
    {
      if job !in known {
        return;
      }
      if job !in removed {
        removed := removed + {job};
      }
    }

    // The next job without taking it; drops the removed jobs it meets.
    method Peek() returns (job: ChannelJob?)
      requires Valid()
      modifies this
      ensures Valid() && known <= old(known) && Contents() == old(Contents())
      ensures job == null <==> Contents() == {}
      ensures job != null ==> job in Contents() && forall j :: j in Contents() ==> Leq(job, j)
    {
      while true
        invariant Valid() && known <= old(known) && Contents() == old(Contents())
        decreases |heap|
      {
        HeapElements(this);
        if |heap| == 0 {
          return null;
        }
        var first := heap[0];
        if first in removed {
          DropFirst();
        } else {
          FirstIsMinimal(this);
          assert first in Contents();
          return first;
        }
      }
    }

    method Pop() returns (job: ChannelJob?)
      requires Valid()
      modifies this
      ensures Valid() && known <= old(known)
      ensures job == null <==> old(Contents()) == {}
      ensures job == null ==> Contents() == {}
      ensures job != null ==> job in old(Contents()) && Contents() == old(Contents()) - {job} && job !in known
      ensures job != null ==> forall j :: j in old(Contents()) ==> Leq(job, j)
    {
      while true
        invariant Valid() && known <= old(known) && Contents() == old(Contents())
        decreases |heap|
      {
        HeapElements(this);
        if |heap| == 0 {
          return null;
        }
        FirstIsMinimal(this);
        var first := heap[0];
        var wasRemoved := first in removed;
        DropFirst();
        if !wasRemoved {
          assert first in old(Contents());
          return first;
        }
      }
    }

    // Takes the top of the heap and forgets it.
    method DropFirst()
      requires Valid() && |heap| > 0
      modifies this
      ensures Valid() && |heap| < |old(heap)|
      ensures known == old(known) - {old(heap)[0]} && removed == old(removed) - {old(heap)[0]}
    {
      HeapElements(this);
      var first, rest := HeapPop(heap);
      assert multiset(known - {first}) == multiset(known) - multiset{first};
      heap, known, removed := rest, known - {first}, removed - {first};
    }
  }

  lemma CountDifference(a: set<ChannelJob>, b: set<ChannelJob>)
    requires b <= a
    ensures |a| - |b| == |a - b|
  {
    assert a == b + (a - b);
  }

  lemma HeapElements(q: PriorityQueue)
    requires q.Valid()
    ensures forall j :: j in q.heap <==> j in q.known
    ensures q.heap == [] <==> q.known == {}
  {
    forall j ensures j in q.heap <==> j in q.known {
      assert j in q.heap <==> j in multiset(q.heap);
    }
    if q.heap != [] {
      assert q.heap[0] in q.known;
    }
  }

  lemma FirstIsMinimal(q: PriorityQueue)
    requires q.Valid() && |q.heap| > 0
    ensures forall j :: j in q.known ==> Leq(q.heap[0], j)
  {
    HeapElements(q);
    forall j | j in q.known ensures Leq(q.heap[0], j) {
      var i :| 0 <= i < |q.heap| && q.heap[i] == j;
      RootIsMinimal(q.heap, i);
    }
  }
}
