/** The binary heap of task_queue.py, seen through its observable behaviour
    only: a sequence of tasks in the order successive pops would return them.
    Under the inverted `Before` comparison that order has non-increasing
    priority. The array layout and sift operations of the heap are not modelled. */
module PriorityHeap {
  import opened Tasks

  /** No task is popped before a task that precedes it under `Before`. */
  predicate HeapOrdered(h: seq<Task>) {
    forall i, j :: 0 <= i < j < |h| ==> !Before(h[j], h[i])
  }

  /** Inserting into the heap: the new task goes after every task whose
      priority is at least its own. Where exactly it lands among equal
      priorities is a choice of this model, not something callers may rely on. */
  function Push(h: seq<Task>, t: Task): (r: seq<Task>)
    requires HeapOrdered(h)
    ensures HeapOrdered(r)
    ensures multiset(r) == multiset(h) + multiset{t}
    ensures |r| == |h| + 1
  {
    if |h| == 0 || Before(t, h[0]) then
      [t] + h
    else
      assert h == [h[0]] + h[1..];
      var rest := Push(h[1..], t);
      forall x | x in rest
        ensures !Before(x, h[0])
      {
        assert x in multiset(rest);
        if x != t {
          assert x in h[1..];
        }
      }
      ConsKeepsOrder(h[0], rest);
      [h[0]] + rest
  }

  /** Putting in front a task that no element of an ordered heap precedes
      gives an ordered heap. */
  lemma ConsKeepsOrder(x: Task, h: seq<Task>)
    requires HeapOrdered(h)
    requires forall y | y in h :: !Before(y, x)
    ensures HeapOrdered([x] + h)
  {
    var r := [x] + h;
    forall i, j | 0 <= i < j < |r|
      ensures !Before(r[j], r[i])
    {
      assert r[j] == h[j - 1];
      if i > 0 {
        assert r[i] == h[i - 1];
      }
    }
  }

  /** The element a pop returns is a minimum under `Before`: no pending task
      has strictly higher priority. */
  lemma PopIsMinimal(h: seq<Task>)
    requires HeapOrdered(h) && |h| > 0
    ensures forall x | x in h :: !Before(x, h[0])
    ensures forall x | x in h :: x.priority <= h[0].priority
  {
    forall x | x in h
      ensures !Before(x, h[0])
    {
      var j :| 0 <= j < |h| && h[j] == x;
      if j > 0 {
        assert !Before(h[j], h[0]);
      }
    }
  }

  /** Removing any element keeps the remaining elements in heap order. */
  lemma RemoveKeepsOrder(h: seq<Task>, k: nat)
    requires HeapOrdered(h) && k < |h|
    ensures HeapOrdered(h[..k] + h[k + 1..])
    ensures multiset(h[..k] + h[k + 1..]) == multiset(h) - multiset{h[k]}
  {
    var r := h[..k] + h[k + 1..];
    forall i, j | 0 <= i < j < |r|
      ensures !Before(r[j], r[i])
    {
      var i' := if i < k then i else i + 1;
      var j' := if j < k then j else j + 1;
      assert r[i] == h[i'] && r[j] == h[j'];
    }
    assert h == h[..k] + [h[k]] + h[k + 1..];
  }
}
