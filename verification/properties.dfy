/** Properties of the queue that relate several calls, or that the source's
    unit tests assert about particular call sequences. */
module QueueProperties {
  import opened Wrappers
  import opened Tasks
  import opened PriorityHeap
  import opened Queue

  /** A pull on a fresh queue finds nothing and leaves it empty. */
  lemma GetOnEmptyQueue(available: Resources)
    ensures Get(Init(), available) == (None, Init())
  {
  }

  /** A pull returns `None` exactly when no pending task fits the budget. */
  lemma GetNoneIffNothingFits(q: TaskQueue, available: Resources)
    requires q.Valid()
    ensures Get(q, available).0.None? <==> forall t | t in q.tasks :: !Fits(t.resources, available)
  {
    var (got, _) := Get(q, available);
    if got.Some? {
      assert got.value in q.Pending();
    }
  }

  /** A pull that finds nothing leaves the model's queue as it was, so asking
      again with the same budget finds nothing again. (The source re-pushes
      the rejects, which may reorder equal priorities; `RetryEmptyPull` in
      module `Sessions` states the same fact for that loop.) */
  lemma EmptyPullIsIdempotent(q: TaskQueue, available: Resources)
    requires q.Valid()
    requires Get(q, available).0.None?
    ensures Get(q, available).1 == q
    ensures Get(Get(q, available).1, available).0.None?
  {
  }

  /** Of two pending tasks that both fit, the one of strictly higher priority
      is preferred: the task returned is not the lower one and ranks at least
      as high as the higher one. */
  lemma HigherPriorityWins(q: TaskQueue, available: Resources, hi: Task, lo: Task)
    requires q.Valid()
    requires hi in q.tasks && lo in q.tasks
    requires Fits(hi.resources, available) && Fits(lo.resources, available)
    requires hi.priority > lo.priority
    ensures Get(q, available).0.Some?
    ensures Get(q, available).0.value != lo
    ensures Get(q, available).0.value.priority >= hi.priority
  {
    assert hi in q.Pending();
    GetNoneIffNothingFits(q, available);
  }

  /** Two pulls in a row with the same budget return tasks of non-increasing
      priority. */
  lemma SuccessivePullsNonIncreasing(q: TaskQueue, available: Resources)
    requires q.Valid()
    ensures var (first, q1) := Get(q, available);
            var second := Get(q1, available).0;
            first.Some? && second.Some? ==> second.value.priority <= first.value.priority
  {
    var (first, q1) := Get(q, available);
    var second := Get(q1, available).0;
    if first.Some? && second.Some? {
      assert second.value in q1.Pending();
      assert second.value in q.Pending();
    }
  }

  /** A task just added is a candidate for the next pull: if it fits, the pull
      succeeds with a task of at least its priority. */
  lemma AddedTaskIsCandidate(q: TaskQueue, t: Task, available: Resources)
    requires q.Valid()
    requires Fits(t.resources, available)
    ensures Get(Add(q, t), available).0.Some?
    ensures Get(Add(q, t), available).0.value.priority >= t.priority
  {
    var q1 := Add(q, t);
    assert t in q1.Pending();
    GetNoneIffNothingFits(q1, available);
  }

  /** The budget boundary is inclusive: a lone task is returned for a budget
      equal to its demand, and not for a budget one unit short in any single
      coordinate. */
  lemma ExactBudgetBoundary(t: Task)
    ensures Get(Add(Init(), t), t.resources) == (Some(t), Init())
    ensures Get(Add(Init(), t), t.resources.(ram := t.resources.ram - 1)).0.None?
    ensures Get(Add(Init(), t), t.resources.(cpuCores := t.resources.cpuCores - 1)).0.None?
    ensures Get(Add(Init(), t), t.resources.(gpuCount := t.resources.gpuCount - 1)).0.None?
  {
    var q := Add(Init(), t);
    assert q.tasks == [t];
  }

  /** Any two outcomes meeting `PullSpec` for the same state and budget agree
      on whether a task is returned and on its priority; only the choice among
      equal-priority fitting tasks is open. */
  lemma PullSpecFixesPriority(pending: multiset<Task>, available: Resources,
                              g1: Option<Task>, a1: multiset<Task>, g2: Option<Task>, a2: multiset<Task>)
    requires PullSpec(pending, available, g1, a1)
    requires PullSpec(pending, available, g2, a2)
    ensures g1.None? <==> g2.None?
    ensures g1.None? ==> a1 == a2
    ensures g1.Some? && g2.Some? ==> g1.value.priority == g2.value.priority
  {
  }

  /** A consumer whose budget fits every pending task pulls until `None`:
      every pending task comes back exactly once, and the queue ends empty. */
  lemma DrainAllFitting(q: TaskQueue, available: Resources)
    requires q.Valid()
    requires forall t | t in q.tasks :: Fits(t.resources, available)
    ensures multiset(Drain(q, available).0) == q.Pending()
    ensures |Drain(q, available).0| == |q.tasks|
    ensures Drain(q, available).1.tasks == []
  {
    var (out, rest) := Drain(q, available);
    assert rest.Pending() <= q.Pending();
    NoFitLeftOver(rest.Pending(), q.Pending(), available);
    assert |rest.Pending()| == |rest.tasks|;
    assert multiset(out) + multiset{} == q.Pending();
  }

  /** Part of a multiset of fitting tasks in which nothing fits is empty. */
  lemma NoFitLeftOver(left: multiset<Task>, all: multiset<Task>, available: Resources)
    requires left <= all
    requires forall u | u in all :: Fits(u.resources, available)
    requires forall u | u in left :: !Fits(u.resources, available)
    ensures left == multiset{}
  {
    assert forall u :: left[u] == 0;
  }

  /** A producer adds every task of `ts` to a fresh queue, then a consumer
      whose budget fits each of them pulls until `None`: every added task
      comes back exactly once, and the queue ends empty. */
  lemma Conservation(ts: seq<Task>, available: Resources)
    requires forall t | t in ts :: Fits(t.resources, available)
    ensures multiset(Drain(AddAll(Init(), ts), available).0) == multiset(ts)
    ensures |Drain(AddAll(Init(), ts), available).0| == |ts|
    ensures Drain(AddAll(Init(), ts), available).1.tasks == []
  {
    var q := AddAll(Init(), ts);
    assert q.Pending() == multiset(ts);
    forall t | t in q.tasks
      ensures Fits(t.resources, available)
    {
      assert t in q.Pending();
    }
    DrainAllFitting(q, available);
    assert |q.tasks| == |multiset(ts)|;
  }

  /** One step of a client session: a producer's `add_task` or a consumer's
      `get_task`. */
  datatype Op = Produce(task: Task) | Consume(available: Resources)

  /** The tasks one step hands in: its task for `add_task`, none otherwise. */
  function AddedBy(op: Op): seq<Task> {
    if op.Produce? then [op.task] else []
  }

  /** The tasks the producers of a session hand in. */
  function Added(ops: seq<Op>): seq<Task> {
    if |ops| == 0 then [] else AddedBy(ops[0]) + Added(ops[1..])
  }

  /** One step on `q`: the tasks it hands to a consumer (none or one) and the
      queue after it. Pending plus handed out equals pending before plus
      handed in. */
  function Step(q: TaskQueue, op: Op): (r: (seq<Task>, TaskQueue))
    requires q.Valid()
    ensures r.1.Valid()
    ensures r.1.Pending() + multiset(r.0) == q.Pending() + multiset(AddedBy(op))
    ensures |r.0| <= 1
  {
    match op
    case Produce(t) => ([], Add(q, t))
    case Consume(available) =>
      var (got, q1) := Get(q, available);
      match got
      case None => ([], q1)
      case Some(t) => ([t], q1)
  }

  /** Replays a session on `q`: the tasks handed to consumers, in order, and
      the final queue. The final pending multiset is the initial one plus
      everything added, minus exactly what was handed out. */
  function Run(q: TaskQueue, ops: seq<Op>): (r: (seq<Task>, TaskQueue))
    requires q.Valid()
    ensures r.1.Valid()
    ensures r.1.Pending() + multiset(r.0) == q.Pending() + multiset(Added(ops))
    decreases |ops|
  {
    if |ops| == 0 then ([], q)
    else
      var (handed, q1) := Step(q, ops[0]);
      var (out, q2) := Run(q1, ops[1..]);
      Accounting(q.Pending(), q1.Pending(), q2.Pending(), handed, out, AddedBy(ops[0]), Added(ops[1..]));
      (handed + out, q2)
  }

  /** Multiset bookkeeping for one step followed by the rest of a session. */
  lemma Accounting(m0: multiset<Task>, m1: multiset<Task>, m2: multiset<Task>,
                   handed: seq<Task>, out: seq<Task>, first: seq<Task>, rest: seq<Task>)
    requires m1 + multiset(handed) == m0 + multiset(first)
    requires m2 + multiset(out) == m1 + multiset(rest)
    ensures m2 + multiset(handed + out) == m0 + multiset(first + rest)
  {
    var h, o, f, r := multiset(handed), multiset(out), multiset(first), multiset(rest);
    assert multiset(handed + out) == h + o;
    assert multiset(first + rest) == f + r;
    calc {
      m2 + (h + o);
      (m2 + o) + h;
      (m1 + r) + h;
      (m1 + h) + r;
      (m0 + f) + r;
    }
  }

  function Job(id: int, priority: int, ram: int, cpu: int, gpu: int): Task {
    Task(id, priority, Resources(ram, cpu, gpu), "", "")
  }

  /** Unit-test scenario: a fitting lone task is returned. */
  lemma ScenarioBasic()
    ensures Get(Add(Init(), Job(1, 5, 2, 2, 1)), Resources(3, 3, 2)).0 == Some(Job(1, 5, 2, 2, 1))
  {
    assert Add(Init(), Job(1, 5, 2, 2, 1)).tasks == [Job(1, 5, 2, 2, 1)];
  }

  /** Unit-test scenario: a task larger than the budget is not returned and
      stays queued. */
  lemma ScenarioTooLarge()
    ensures Get(Add(Init(), Job(2, 10, 4, 4, 2)), Resources(3, 3, 1)) == (None, Add(Init(), Job(2, 10, 4, 4, 2)))
  {
    assert Add(Init(), Job(2, 10, 4, 4, 2)).tasks == [Job(2, 10, 4, 4, 2)];
  }

  /** Unit-test scenario: of two fitting tasks the higher priority one is
      returned, although it was added second. */
  lemma ScenarioPriority()
    ensures Get(Add(Add(Init(), Job(3, 1, 1, 1, 1)), Job(4, 10, 1, 1, 1)), Resources(2, 2, 1)).0 == Some(Job(4, 10, 1, 1, 1))
  {
    assert Add(Add(Init(), Job(3, 1, 1, 1, 1)), Job(4, 10, 1, 1, 1)).tasks == [Job(4, 10, 1, 1, 1), Job(3, 1, 1, 1, 1)];
  }

  /** Unit-test scenario: with different demands in each coordinate, the
      higher priority task that fits is returned. */
  lemma ScenarioMixedDemands()
    ensures Get(Add(Add(Init(), Job(5, 3, 2, 1, 0)), Job(6, 4, 0, 2, 1)), Resources(2, 2, 1)).0 == Some(Job(6, 4, 0, 2, 1))
  {
    assert Add(Add(Init(), Job(5, 3, 2, 1, 0)), Job(6, 4, 0, 2, 1)).tasks == [Job(6, 4, 0, 2, 1), Job(5, 3, 2, 1, 0)];
  }

  /** Unit-test scenario: no task fits, so the result is `None`. */
  lemma ScenarioNothingFits()
    ensures Get(Add(Add(Init(), Job(7, 5, 5, 5, 5)), Job(8, 6, 6, 6, 6)), Resources(4, 4, 4)).0.None?
  {
    assert Add(Add(Init(), Job(7, 5, 5, 5, 5)), Job(8, 6, 6, 6, 6)).tasks == [Job(8, 6, 6, 6, 6), Job(7, 5, 5, 5, 5)];
  }
}
