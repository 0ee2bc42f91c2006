/** Client sessions stated relationally: a trace of pending multisets in which
    every pull meets `PullSpec` and every add grows the multiset by its task.
    The facts proved here hold for any implementation of the queue whose
    single calls meet those specifications, whatever order it keeps among
    equal priorities; the methods below replay sessions through `GetTask`,
    the source's own pop, buffer and re-push loop. */
module Sessions {
  import opened Wrappers
  import opened Tasks
  import opened Queue
  import opened QueueProperties

  /** `out` was obtained by successive successful pulls with one budget, the
      pending multiset going from `states[i]` to `states[i + 1]` on pull `i`. */
  ghost predicate PullTrace(states: seq<multiset<Task>>, available: Resources, out: seq<Task>) {
    && |states| == |out| + 1
    && forall i | 0 <= i < |out| :: PullSpec(states[i], available, Some(out[i]), states[i + 1])
  }

  /** A pull trace followed by a pull that returns `None`, as a consumer that
      pulls until `None` produces. */
  ghost predicate DrainTrace(states: seq<multiset<Task>>, available: Resources, out: seq<Task>) {
    && PullTrace(states, available, out)
    && PullSpec(states[|out|], available, None, states[|out|])
  }

  /** Along any pull trace: the tasks obtained and the tasks left account for
      exactly the tasks pending at the start, every task obtained fits, and
      they come out in non-increasing priority. */
  lemma {:induction false} PullTraceAccounts(states: seq<multiset<Task>>, available: Resources, out: seq<Task>)
    requires PullTrace(states, available, out)
    ensures multiset(out) + states[|out|] == states[0]
    ensures forall i | 0 <= i < |out| :: Fits(out[i].resources, available)
    ensures forall i, j | 0 <= i < j < |out| :: out[j].priority <= out[i].priority
    decreases |out|
  {
    if |out| > 0 {
      var t, rest := out[0], out[1..];
      PullTraceTail(states, available, out);
      PullTraceAccounts(states[1..], available, rest);
      assert out == [t] + rest;
      FirstThenRest(states[0], states[1], t, rest, states[|out|]);
      FirstOutranksRest(states[0], available, t, states[1], rest);
      forall i, j | 0 <= i < j < |out|
        ensures out[j].priority <= out[i].priority
      {
        assert out[j] == rest[j - 1];
        if i > 0 {
          assert out[i] == rest[i - 1];
        }
      }
    }
  }

  /** Dropping the first pull of a trace leaves a trace. */
  lemma PullTraceTail(states: seq<multiset<Task>>, available: Resources, out: seq<Task>)
    requires PullTrace(states, available, out) && |out| > 0
    ensures PullTrace(states[1..], available, out[1..])
  {
    forall i | 0 <= i < |out| - 1
      ensures PullSpec(states[1..][i], available, Some(out[1..][i]), states[1..][i + 1])
    {
      assert PullSpec(states[i + 1], available, Some(out[i + 1]), states[i + 2]);
    }
  }

  /** Tasks obtained by later pulls that fit were pending at the first pull,
      so none of them ranks above the first task obtained. */
  lemma FirstOutranksRest(pending: multiset<Task>, available: Resources, t: Task, after: multiset<Task>, rest: seq<Task>)
    requires PullSpec(pending, available, Some(t), after)
    requires multiset(rest) <= after
    requires forall j | 0 <= j < |rest| :: Fits(rest[j].resources, available)
    ensures forall j | 0 <= j < |rest| :: rest[j].priority <= t.priority
  {
    forall j | 0 <= j < |rest|
      ensures rest[j].priority <= t.priority
    {
      assert rest[j] in multiset(rest);
    }
  }

  /** A consumer whose budget fits every task pending at the start of a
      drain trace obtains each of them exactly once, and leaves nothing. */
  lemma DrainTraceReturnsAll(states: seq<multiset<Task>>, available: Resources, out: seq<Task>)
    requires DrainTrace(states, available, out)
    requires forall u | u in states[0] :: Fits(u.resources, available)
    ensures multiset(out) == states[0]
    ensures |out| == |states[0]|
    ensures states[|out|] == multiset{}
  {
    PullTraceAccounts(states, available, out);
    NoFitLeftOver(states[|out|], states[0], available);
  }

  /** Extending a pull trace by one more successful pull. */
  lemma PullTraceExtend(states: seq<multiset<Task>>, available: Resources, out: seq<Task>, t: Task, after: multiset<Task>)
    requires PullTrace(states, available, out)
    requires PullSpec(states[|out|], available, Some(t), after)
    ensures PullTrace(states + [after], available, out + [t])
  {
    var s, o := states + [after], out + [t];
    forall i | 0 <= i < |o|
      ensures PullSpec(s[i], available, Some(o[i]), s[i + 1])
    {
      if i < |out| {
        assert s[i] == states[i] && s[i + 1] == states[i + 1] && o[i] == out[i];
      }
    }
  }

  /** The consumer loop of the bulk retrieval test: call `get_task` with one
      budget until it returns `None`. Everything obtained fits and comes out
      in non-increasing priority; together with what is left it is exactly
      what was pending; and nothing left fits the budget. */
  method DrainTasks(q: TaskQueue, available: Resources) returns (out: seq<Task>, q': TaskQueue)
    requires q.Valid()
    ensures q'.Valid()
    ensures multiset(out) + q'.Pending() == q.Pending()
    ensures forall i | 0 <= i < |out| :: Fits(out[i].resources, available)
    ensures forall i, j | 0 <= i < j < |out| :: out[j].priority <= out[i].priority
    ensures forall u | u in q'.Pending() :: !Fits(u.resources, available)
  {
    out, q' := [], q;
    ghost var states := [q.Pending()];
    var got, next := GetTask(q', available);
    while got.Some?
      invariant q'.Valid() && next.Valid()
      invariant PullTrace(states, available, out)
      invariant states[0] == q.Pending() && states[|out|] == q'.Pending()
      invariant PullSpec(q'.Pending(), available, got, next.Pending())
      decreases |q'.tasks|
    {
      PullTraceExtend(states, available, out, got.value, next.Pending());
      assert |next.Pending()| < |q'.Pending()|;
      out, q', states := out + [got.value], next, states + [next.Pending()];
      got, next := GetTask(q', available);
    }
    assert DrainTrace(states, available, out);
    PullTraceAccounts(states, available, out);
    q' := next;
  }

  /** The bulk retrieval test: every queued task fits the budget, so the
      consumer loop obtains each of them exactly once and empties the queue. */
  method DrainAllTasks(q: TaskQueue, available: Resources) returns (out: seq<Task>, q': TaskQueue)
    requires q.Valid()
    requires forall t | t in q.tasks :: Fits(t.resources, available)
    ensures multiset(out) == q.Pending()
    ensures |out| == |q.tasks|
    ensures q'.tasks == []
  {
    out, q' := DrainTasks(q, available);
    assert q'.Pending() <= q.Pending();
    NoFitLeftOver(q'.Pending(), q.Pending(), available);
    assert |q'.Pending()| == |q'.tasks|;
    assert multiset(out) + multiset{} == q.Pending();
  }

  /** The repeated resource check test: a `get_task` that returns `None`
      re-pushes every task it popped, so the same pull made again returns
      `None` again and the pending tasks stay as they were. */
  method RetryEmptyPull(q: TaskQueue, available: Resources) returns (first: Option<Task>, second: Option<Task>, q2: TaskQueue)
    requires q.Valid()
    ensures q2.Valid()
    ensures first.None? <==> forall u | u in q.tasks :: !Fits(u.resources, available)
    ensures first.None? ==> second.None? && q2.Pending() == q.Pending()
  {
    var q1;
    first, q1 := GetTask(q, available);
    second, q2 := GetTask(q1, available);
    if first.Some? {
      assert first.value in q.Pending();
    }
  }

  /** What one session step may do to the pending multiset, for any
      implementation: an add grows it by its task and hands out nothing; a
      pull hands out what `PullSpec` allows, none or one task. */
  ghost predicate StepSpec(before: multiset<Task>, op: Op, handed: seq<Task>, after: multiset<Task>) {
    match op
    case Produce(t) => handed == [] && after == before + multiset{t}
    case Consume(available) =>
      || (handed == [] && PullSpec(before, available, None, after))
      || (|handed| == 1 && PullSpec(before, available, Some(handed[0]), after))
  }

  /** A session of adds and pulls: step `i` takes the pending multiset from
      `states[i]` to `states[i + 1]` and hands out `handed[i]`. */
  ghost predicate SessionTrace(states: seq<multiset<Task>>, ops: seq<Op>, handed: seq<seq<Task>>) {
    && |states| == |ops| + 1
    && |handed| == |ops|
    && forall i | 0 <= i < |ops| :: StepSpec(states[i], ops[i], handed[i], states[i + 1])
  }

  /** All tasks handed out over a session, in order. */
  function Flatten(handed: seq<seq<Task>>): seq<Task> {
    if |handed| == 0 then [] else handed[0] + Flatten(handed[1..])
  }

  /** Over any session, final pending plus everything handed out equals the
      initial pending plus everything added: no task is lost, duplicated or
      invented. */
  lemma {:induction false} SessionConserves(states: seq<multiset<Task>>, ops: seq<Op>, handed: seq<seq<Task>>)
    requires SessionTrace(states, ops, handed)
    ensures states[|ops|] + multiset(Flatten(handed)) == states[0] + multiset(Added(ops))
    decreases |ops|
  {
    if |ops| > 0 {
      assert SessionTrace(states[1..], ops[1..], handed[1..]) by {
        forall i | 0 <= i < |ops| - 1
          ensures StepSpec(states[1..][i], ops[1..][i], handed[1..][i], states[1..][i + 1])
        {
          assert StepSpec(states[i + 1], ops[i + 1], handed[i + 1], states[i + 2]);
        }
      }
      SessionConserves(states[1..], ops[1..], handed[1..]);
      assert StepSpec(states[0], ops[0], handed[0], states[1]);
      StepAccounts(states[0], ops[0], handed[0], states[1]);
      Accounting(states[0], states[1], states[|ops|], handed[0], Flatten(handed[1..]), AddedBy(ops[0]), Added(ops[1..]));
    }
  }

  /** One step meeting `StepSpec` conserves pending plus handed out. */
  lemma StepAccounts(before: multiset<Task>, op: Op, handed: seq<Task>, after: multiset<Task>)
    requires StepSpec(before, op, handed, after)
    ensures after + multiset(handed) == before + multiset(AddedBy(op))
  {
    if op.Consume? && handed != [] {
      assert handed == [handed[0]];
    }
  }

  /** Replays a session with `add_task` and the source's `get_task` loop:
      final pending plus everything handed out equals initial pending plus
      everything added. */
  method RunSession(q: TaskQueue, ops: seq<Op>) returns (out: seq<Task>, q': TaskQueue)
    requires q.Valid()
    ensures q'.Valid()
    ensures q'.Pending() + multiset(out) == q.Pending() + multiset(Added(ops))
  {
    out, q' := [], q;
    for i := 0 to |ops|
      invariant q'.Valid()
      invariant q'.Pending() + multiset(out) + multiset(Added(ops[i..])) == q.Pending() + multiset(Added(ops))
    {
      assert Added(ops[i..]) == AddedBy(ops[i]) + Added(ops[i + 1..]) by {
        assert ops[i..][1..] == ops[i + 1..];
      }
      ghost var before := q'.Pending();
      var handed: seq<Task> := [];
      if ops[i].Produce? {
        q' := Add(q', ops[i].task);
      } else {
        var got;
        got, q' := GetTask(q', ops[i].available);
        if got.Some? {
          handed := [got.value];
        }
      }
      StepThenRest(before, q'.Pending(), out, handed, AddedBy(ops[i]), Added(ops[i + 1..]), q.Pending() + multiset(Added(ops)));
      out := out + handed;
    }
  }

  /** Multiset bookkeeping for one replayed step followed by the rest of the
      session. */
  lemma StepThenRest(pending: multiset<Task>, after: multiset<Task>, out: seq<Task>, handed: seq<Task>,
                     first: seq<Task>, rest: seq<Task>, total: multiset<Task>)
    requires pending + multiset(out) + multiset(first + rest) == total
    requires after + multiset(handed) == pending + multiset(first)
    ensures after + multiset(out + handed) + multiset(rest) == total
  {
    var o, h, f, r := multiset(out), multiset(handed), multiset(first), multiset(rest);
    assert multiset(first + rest) == f + r;
    assert multiset(out + handed) == o + h;
    calc {
      after + (o + h) + r;
      (after + h) + o + r;
      (pending + f) + o + r;
      pending + o + (f + r);
    }
  }
}
