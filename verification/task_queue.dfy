/** The resource-aware priority queue of task_queue.py: `TaskQueue.__init__`,
    `add_task` and `get_task`, as pure functions over an immutable queue value,
    plus `GetTask`, a method that follows the source's pop-and-buffer scan and
    its requeue loops step by step. */
module Queue {
  import opened Wrappers
  import opened Tasks
  import opened PriorityHeap

  /** The queue's only state: the heap of pending tasks, in pop order. */
  datatype TaskQueue = TaskQueue(tasks: seq<Task>) {

    predicate Valid() {
      HeapOrdered(tasks)
    }

    /** The pending tasks as a multiset, forgetting heap order. */
    function Pending(): multiset<Task> {
      multiset(tasks)
    }
  }

  /** What one pull with budget `available` must do, stated on the pending
      multisets before and after, independently of any heap order. Either no
      pending task fits, nothing is returned and nothing changes; or the
      returned task was pending, fits, has the highest priority among the
      pending tasks that fit, and is the only task removed. Which of several
      equal-priority fitting tasks is returned is left open. */
  ghost predicate PullSpec(pending: multiset<Task>, available: Resources, got: Option<Task>, after: multiset<Task>) {
    match got
    case None =>
      && (forall u | u in pending :: !Fits(u.resources, available))
      && after == pending
    case Some(t) =>
      && t in pending
      && Fits(t.resources, available)
      && (forall u | u in pending && Fits(u.resources, available) :: u.priority <= t.priority)
      && after + multiset{t} == pending
  }

  /** `TaskQueue()`: a new queue holds no task. */
  function Init(): (q: TaskQueue)
    ensures q.Valid()
    ensures q.Pending() == multiset{}
  {
    TaskQueue([])
  }

  /** `add_task`: the pending multiset grows by exactly `t`; duplicates of an
      id and zero-resource tasks are accepted like any other. */
  function Add(q: TaskQueue, t: Task): (r: TaskQueue)
    requires q.Valid()
    ensures r.Valid()
    ensures r.Pending() == q.Pending() + multiset{t}
  {
    TaskQueue(Push(q.tasks, t))
  }

  /** Index of the first task in pop order that fits `available`, or `|h|`
      when none does: the point where the source's scan stops. */
  function FirstFit(h: seq<Task>, available: Resources): (k: nat)
    ensures k <= |h|
    ensures forall i | 0 <= i < k :: !Fits(h[i].resources, available)
    ensures k < |h| ==> Fits(h[k].resources, available)
  {
    if |h| == 0 || Fits(h[0].resources, available) then 0
    else 1 + FirstFit(h[1..], available)
  }

  /** `get_task`: the first task in pop order that fits is removed and
      returned; tasks skipped on the way stay pending. If nothing fits, the
      result is `None` and the queue is returned as it was. Skipped tasks
      keep their places here; the source pops and re-pushes them, which may
      reorder equal priorities, so only the pending multiset is common to
      both (see `GetTask`). */
  function Get(q: TaskQueue, available: Resources): (r: (Option<Task>, TaskQueue))
    requires q.Valid()
    ensures r.1.Valid()
    ensures PullSpec(q.Pending(), available, r.0, r.1.Pending())
    ensures r.0.None? ==> r.1 == q
    ensures r.0.Some? ==> |r.1.tasks| + 1 == |q.tasks|
  {
    var k := FirstFit(q.tasks, available);
    if k == |q.tasks| then
      NothingFitsBeyondScan(q.tasks, available);
      (None, q)
    else
      FirstFitIsBest(q.tasks, available);
      RemoveKeepsOrder(q.tasks, k);
      (Some(q.tasks[k]), TaskQueue(q.tasks[..k] + q.tasks[k + 1..]))
  }

  /** A scan that runs off the end of the heap has seen every pending task. */
  lemma NothingFitsBeyondScan(h: seq<Task>, available: Resources)
    requires FirstFit(h, available) == |h|
    ensures forall u | u in multiset(h) :: !Fits(u.resources, available)
  {
    forall u | u in multiset(h)
      ensures !Fits(u.resources, available)
    {
      var j :| 0 <= j < |h| && h[j] == u;
    }
  }

  /** The first fitting task in pop order has the highest priority among all
      fitting tasks: every fitting task lies at or after it in the heap. */
  lemma FirstFitIsBest(h: seq<Task>, available: Resources)
    requires HeapOrdered(h)
    requires FirstFit(h, available) < |h|
    ensures forall u | u in multiset(h) && Fits(u.resources, available) :: u.priority <= h[FirstFit(h, available)].priority
  {
    var k := FirstFit(h, available);
    forall u | u in multiset(h) && Fits(u.resources, available)
      ensures u.priority <= h[k].priority
    {
      var j :| 0 <= j < |h| && h[j] == u;
      assert j >= k;
      if j > k {
        assert !Before(h[j], h[k]);
      }
    }
  }

  /** The `for item in temp: heappush(...)` loops: put every buffered task
      back on the heap. */
  method Requeue(h: seq<Task>, temp: seq<Task>) returns (r: seq<Task>)
    requires HeapOrdered(h)
    ensures HeapOrdered(r)
    ensures multiset(r) == multiset(h) + multiset(temp)
  {
    r := h;
    for i := 0 to |temp|
      invariant HeapOrdered(r)
      invariant multiset(r) == multiset(h) + multiset(temp[..i])
    {
      r := Push(r, temp[i]);
      assert temp[..i + 1] == temp[..i] + [temp[i]];
    }
    assert temp[..|temp|] == temp;
  }

  /** `get_task` as the source runs it: pop tasks in priority order, buffer
      each one that does not fit, and on the first that fits push the buffer
      back and return it; if the heap runs dry, push the buffer back and
      return `None`. It returns the same task as `Get` and leaves the same
      pending multiset. */
  method GetTask(q: TaskQueue, available: Resources) returns (got: Option<Task>, q': TaskQueue)
    requires q.Valid()
    ensures q'.Valid()
    ensures PullSpec(q.Pending(), available, got, q'.Pending())
    ensures got == Get(q, available).0
    ensures q'.Pending() == Get(q, available).1.Pending()
  {
    var tasks := q.tasks;
    var temp: seq<Task> := [];
    while |tasks| > 0
      // the popped rejects and the unpopped heap together are the original
      // heap, so no task is lost or duplicated during the scan
      invariant |temp| <= |q.tasks|
      invariant temp == q.tasks[..|temp|] && tasks == q.tasks[|temp|..]
      invariant HeapOrdered(tasks)
      invariant forall i | 0 <= i < |temp| :: !Fits(temp[i].resources, available)
    {
      var task := tasks[0];
      PopKeepsOrder(tasks);
      tasks := tasks[1..];
      if Fits(task.resources, available) {
        assert q.tasks == temp + [task] + tasks;
        got, q' := Restore(q, available, temp, Some(task), tasks);
        return;
      }
      temp := temp + [task];
    }
    assert q.tasks == temp;
    got, q' := Restore(q, available, temp, None, tasks);
  }

  /** The two exits of `get_task`: push every buffered reject back onto the
      unpopped heap and return what the scan found. */
  method Restore(q: TaskQueue, available: Resources, temp: seq<Task>, found: Option<Task>, tasks: seq<Task>)
    returns (got: Option<Task>, q': TaskQueue)
    requires q.Valid() && HeapOrdered(tasks)
    requires forall i | 0 <= i < |temp| :: !Fits(temp[i].resources, available)
    requires found.Some? ==> Fits(found.value.resources, available) && q.tasks == temp + [found.value] + tasks
    requires found.None? ==> q.tasks == temp && tasks == []
    ensures q'.Valid()
    ensures PullSpec(q.Pending(), available, got, q'.Pending())
    ensures got == Get(q, available).0
    ensures q'.Pending() == Get(q, available).1.Pending()
  {
    var rest := Requeue(tasks, temp);
    got, q' := found, TaskQueue(rest);
    if found.Some? {
      GetStopsAtFirstFit(q, available, temp, found.value, tasks);
      assert q'.Pending() == multiset(tasks) + multiset(temp);
    } else {
      GetFindsNothing(q, available, temp);
      assert q'.Pending() == multiset(temp);
    }
  }

  /** Popping the front of an ordered heap leaves an ordered heap. */
  lemma PopKeepsOrder(h: seq<Task>)
    requires HeapOrdered(h) && |h| > 0
    ensures HeapOrdered(h[1..])
  {
    forall i, j | 0 <= i < j < |h| - 1
      ensures !Before(h[1..][j], h[1..][i])
    {
      assert h[1..][j] == h[j + 1] && h[1..][i] == h[i + 1];
    }
  }

  /** When the scan finds `task` after skipping the non-fitting `temp`, `Get`
      returns `task` and keeps exactly the skipped and unseen tasks. */
  lemma GetStopsAtFirstFit(q: TaskQueue, available: Resources, temp: seq<Task>, task: Task, tasks: seq<Task>)
    requires q.Valid()
    requires q.tasks == temp + [task] + tasks
    requires forall i | 0 <= i < |temp| :: !Fits(temp[i].resources, available)
    requires Fits(task.resources, available)
    ensures Get(q, available).0 == Some(task)
    ensures Get(q, available).1.Pending() == multiset(tasks) + multiset(temp)
    ensures PullSpec(q.Pending(), available, Some(task), multiset(tasks) + multiset(temp))
  {
    var k := |temp|;
    ScanStopsAt(q.tasks, available, k);
    assert q.tasks[k] == task;
    assert q.tasks[..k] + q.tasks[k + 1..] == temp + tasks;
    assert Get(q, available) == (Some(task), TaskQueue(temp + tasks));
    assert multiset(temp + tasks) == multiset(tasks) + multiset(temp);
  }

  /** When the scan runs off the end without a fit, `Get` returns `None`. */
  lemma GetFindsNothing(q: TaskQueue, available: Resources, temp: seq<Task>)
    requires q.Valid()
    requires q.tasks == temp
    requires forall i | 0 <= i < |temp| :: !Fits(temp[i].resources, available)
    ensures Get(q, available) == (None, q)
    ensures PullSpec(q.Pending(), available, None, multiset(temp))
  {
    ScanStopsAt(q.tasks, available, |temp|);
  }

  /** The first fitting index is pinned down by its contract: a position
      that fits, with nothing fitting before it, is the one `FirstFit` finds. */
  lemma ScanStopsAt(h: seq<Task>, available: Resources, k: nat)
    requires k <= |h|
    requires forall i | 0 <= i < k :: !Fits(h[i].resources, available)
    requires k < |h| ==> Fits(h[k].resources, available)
    ensures FirstFit(h, available) == k
  {
  }

  /** A producer adding `ts` one after another, as the source's callers do
      with repeated `add_task` calls. */
  function AddAll(q: TaskQueue, ts: seq<Task>): (r: TaskQueue)
    requires q.Valid()
    ensures r.Valid()
    ensures r.Pending() == q.Pending() + multiset(ts)
    decreases |ts|
  {
    if |ts| == 0 then q
    else
      assert ts == [ts[0]] + ts[1..];
      AddAll(Add(q, ts[0]), ts[1..])
  }

  /** A consumer calling `get_task` with one budget until it returns `None`:
      the tasks obtained, in order, and the queue left behind. Everything
      obtained fits, comes out in heap order (non-increasing priority), and
      together with what is left accounts for every task that was pending. */
  function Drain(q: TaskQueue, available: Resources): (r: (seq<Task>, TaskQueue))
    requires q.Valid()
    ensures r.1.Valid()
    ensures multiset(r.0) + r.1.Pending() == q.Pending()
    ensures Get(r.1, available).0.None?
    ensures forall u | u in r.0 :: Fits(u.resources, available)
    ensures HeapOrdered(r.0)
    decreases |q.tasks|
  {
    var (got, q1) := Get(q, available);
    match got
    case None => ([], q)
    case Some(t) =>
      var (out, rest) := Drain(q1, available);
      LaterPullsRankNoHigher(q.Pending(), available, t, q1.Pending(), out);
      ConsKeepsOrder(t, out);
      FirstThenRest(q.Pending(), q1.Pending(), t, out, rest.Pending());
      ([t] + out, rest)
  }

  /** Multiset bookkeeping for one pull followed by the rest of a drain. */
  lemma FirstThenRest(pending: multiset<Task>, after: multiset<Task>, t: Task, out: seq<Task>, left: multiset<Task>)
    requires after + multiset{t} == pending
    requires multiset(out) + left == after
    ensures multiset([t] + out) + left == pending
  {
    assert multiset([t] + out) == multiset{t} + multiset(out);
  }

  /** Tasks pulled later with the same budget come from what the first pull
      left behind, so none of them outranks the first task pulled. */
  lemma LaterPullsRankNoHigher(pending: multiset<Task>, available: Resources, t: Task, after: multiset<Task>, later: seq<Task>)
    requires PullSpec(pending, available, Some(t), after)
    requires multiset(later) <= after
    requires forall u | u in later :: Fits(u.resources, available)
    ensures forall u | u in later :: !Before(u, t)
  {
    forall u | u in later
      ensures !Before(u, t)
    {
      assert u in multiset(later);
      assert u in pending;
    }
  }
}
