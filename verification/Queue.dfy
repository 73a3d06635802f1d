/** The order of a distributed run's queue: slowest first, stable among equals. */
module SlowestFirstQueue {
  import opened Fleet

  /** The tasks with a given estimate, in queue order. */
  function WithEstimate(work: seq<Task>, e: nat): seq<Task> {
    if work == [] then []
    else if work[0].estimate == e then [work[0]] + WithEstimate(work[1..], e)
    else WithEstimate(work[1..], e)
  }

  /** For each estimate the same tasks, in the same order. */
  ghost predicate SameOrder(a: seq<Task>, b: seq<Task>) {
    forall e :: WithEstimate(a, e) == WithEstimate(b, e)
  }

  lemma {:induction false} WithEstimateAppend(a: seq<Task>, b: seq<Task>, e: nat)
    ensures WithEstimate(a + b, e) == WithEstimate(a, e) + WithEstimate(b, e)
  {
    if a == [] {
      assert a + b == b;
    } else {
      assert (a + b)[1..] == a[1..] + b;
      WithEstimateAppend(a[1..], b, e);
    }
  }

  lemma {:induction false} NoneWithEstimate(a: seq<Task>, e: nat)
    requires forall k | 0 <= k < |a| :: a[k].estimate != e
    ensures WithEstimate(a, e) == []
  {
    if a != [] {
      NoneWithEstimate(a[1..], e);
    }
  }

  /** Inserting a task behind its equals appends it to them. */
  lemma InsertIsStable(a: seq<Task>, x: Task, b: seq<Task>, e: nat)
    requires forall k | 0 <= k < |b| :: b[k].estimate < x.estimate
    ensures WithEstimate(a + [x] + b, e) == WithEstimate(a + b, e) + WithEstimate([x], e)
  {
    hide WithEstimate;
    WithEstimateAppend(a + [x], b, e);
    WithEstimateAppend(a, [x], e);
    WithEstimateAppend(a, b, e);
    if e == x.estimate {
      NoneWithEstimate(b, e);
    } else {
      NoneWithEstimate([x], e);
    }
    Swap(WithEstimate(a, e), WithEstimate([x], e), WithEstimate(b, e));
  }

  lemma Swap(p: seq<Task>, q: seq<Task>, r: seq<Task>)
    requires q == [] || r == []
    ensures p + q + r == p + r + q
  {
    assert q == [] ==> p + q == p && p + r + q == p + r;
    assert r == [] ==> p + r == p && p + q + r == p + q;
  }

  lemma InsertIsSorted(queue: seq<Task>, x: Task, k: nat)
    requires Sorted(queue) && k <= |queue|
    requires k > 0 ==> queue[k - 1].estimate >= x.estimate
    requires forall j | k <= j < |queue| :: queue[j].estimate < x.estimate
    ensures Sorted(queue[..k] + [x] + queue[k..])
  {
    assert forall j | 0 <= j < k :: queue[j].estimate >= x.estimate;
  }

  /** A stable sort by descending estimate. */
  method SlowestFirst(tasks: seq<Task>) returns (queue: seq<Task>)
    ensures Sorted(queue) && |queue| == |tasks|
    ensures SameOrder(queue, tasks)
    ensures forall k | 0 <= k < |queue| :: queue[k] in tasks
  {
    queue := [];
    var i := 0;
    while i < |tasks|
      invariant 0 <= i <= |tasks| && |queue| == i && Sorted(queue)
      invariant SameOrder(queue, tasks[..i])
      invariant forall k | 0 <= k < |queue| :: queue[k] in tasks
    {
      var k := |queue|;
      while k > 0 && queue[k - 1].estimate < tasks[i].estimate
        invariant 0 <= k <= |queue|
        invariant forall j | k <= j < |queue| :: queue[j].estimate < tasks[i].estimate
      {
        k := k - 1;
      }
      InsertAt(queue, tasks, i, k);
      queue := queue[..k] + [tasks[i]] + queue[k..];
      i := i + 1;
    }
    assert tasks[..i] == tasks;
  }

  lemma InsertOne(a: seq<Task>, x: Task, b: seq<Task>, before: seq<Task>, e: nat)
    requires forall k | 0 <= k < |b| :: b[k].estimate < x.estimate
    requires WithEstimate(a + b, e) == WithEstimate(before, e)
    ensures WithEstimate(a + [x] + b, e) == WithEstimate(before + [x], e)
  {
    hide WithEstimate;
    InsertIsStable(a, x, b, e);
    WithEstimateAppend(before, [x], e);
  }

  lemma InsertKeepsOrder(a: seq<Task>, x: Task, b: seq<Task>, before: seq<Task>)
    requires (forall k | 0 <= k < |b| :: b[k].estimate < x.estimate) && SameOrder(a + b, before)
    ensures SameOrder(a + [x] + b, before + [x])
  {
    hide WithEstimate;
    forall e
      ensures WithEstimate(a + [x] + b, e) == WithEstimate(before + [x], e)
    {
      InsertOne(a, x, b, before, e);
    }
  }

  lemma InsertAt(queue: seq<Task>, tasks: seq<Task>, i: nat, k: nat)
    requires i < |tasks| && Sorted(queue) && k <= |queue|
    requires k > 0 ==> queue[k - 1].estimate >= tasks[i].estimate
    requires forall j | k <= j < |queue| :: queue[j].estimate < tasks[i].estimate
    requires SameOrder(queue, tasks[..i])
    ensures var r := queue[..k] + [tasks[i]] + queue[k..]; Sorted(r) && SameOrder(r, tasks[..i + 1])
  {
    hide SameOrder;
    InsertIsSorted(queue, tasks[i], k);
    hide Sorted;
    assert queue[..k] + queue[k..] == queue;
    assert tasks[..i + 1] == tasks[..i] + [tasks[i]];
    InsertKeepsOrder(queue[..k], tasks[i], queue[k..], tasks[..i]);
  }
}
