# Resource-aware task queue, modelled in Dafny

This project models `TaskQueue` from `task_queue.py`. It is a priority queue
of tasks. Each task carries an integer priority and a three-dimensional
resource demand (`ram`, `cpu_cores`, `gpu_count`). A consumer pulls with a
budget. It receives the highest-priority pending task whose demand fits the
budget in every coordinate, or `None` when nothing fits. Tasks skipped because
they do not fit stay queued.

Layout:

- `tasks.dfy`, module `Tasks`: the `Resources` and `Task` records, the
  feasibility predicate `Fits` (lines 74-76), and `Before`, the inverted
  `__lt__` that makes the min-heap pop the highest priority first.
- `heap.dfy`, module `PriorityHeap`: the heap as an abstract pop-ordered
  sequence (`HeapOrdered`), `Push` for `heapq.heappush`, and facts about
  popping and removing.
- `task_queue.dfy`, module `Queue`: the queue value, `Init`, `Add` and `Get`
  as pure functions, specified against `PullSpec`. `PullSpec` is an
  order-free statement of one pull on pending multisets. `GetTask` is a
  method that follows the source's pop-and-buffer loop and requeue loops step
  by step. It is proved to agree with `Get`. `AddAll` and `Drain` model a
  producer adding many tasks and a consumer pulling until `None`.
- `properties.dfy`, module `QueueProperties`: lemmas relating several calls
  of `Get`, client sessions built from `Add` and `Get` (`Run`), and the
  scenarios the unit tests assert.
- `sessions.dfy`, module `Sessions`: sessions stated relationally, as traces
  of pending multisets in which every pull meets `PullSpec` and every add
  grows the multiset by its task. Conservation and non-increasing priority
  are proved for any such trace, so they hold for any queue whose single
  calls meet those specifications, whatever order it keeps among equal
  priorities. `DrainTasks`, `RetryEmptyPull` and `RunSession` replay the
  test sessions through `GetTask`.
- `wrappers.dfy`, module `Wrappers`: `Option`, standing for Python's `None`
  or a task.

Integers are unbounded, as in Python. The source validates nothing, so
negative quantities and priorities are admitted.

The heap is modelled only through its pop order. A pop returns the front of
the sequence. A push inserts after every task of at least equal priority.
Where a task lands among equal priorities is this model's choice. No
contract depends on it: `PullSpec` leaves the choice among equal-priority
fitting tasks open.

`Get` and `GetTask` differ in what they do to skipped tasks. `Get` leaves
them where they were: on `None` it returns the queue itself, and otherwise
it removes only the returned task. `GetTask`, like the source, pops them and
pushes them back. That can reorder equal priorities. For example, with
three equal-priority tasks A, B and C where only B fits, `Get` leaves A, C
while the re-push leaves C, A. What the two share, and what the source
promises, is the pending multiset. Every contract that reaches beyond one
call of `Get` is therefore also stated over `PullSpec` traces in module
`Sessions`.

First-in, first-out service among equal priorities is not guaranteed by the
code. `heapq` is not stable, and the requeue pushes rejects back in a new
order. One unit test (test_task_queue.py:48-54) asserts it for two tasks
only. The model claims no tie-break (see
`QueueProperties.PullSpecFixesPriority`).

## Model

| member | source | states |
|---|---|---|
| Tasks.FitsAtEquality | task_queue.py:74-76 | The comparisons are `<=`, so a budget exactly equal to the demand admits the task. |
| Tasks.FitsRejectsAnyShortfall | task_queue.py:74-76 | A shortfall in any single coordinate (ram, cpu cores or gpu count) rejects the task, whatever the other coordinates hold. |
| Tasks.FitsIsMonotone | task_queue.py:74-76 | A budget at least as large in every coordinate admits every task a smaller budget admits. |
| Tasks.FitsIsNotASumComparison | task_queue.py:74-76 | Feasibility compares coordinates, not totals. A demand of (2,1,0) fits (3,1,5) but not (1,1,5), although (1,1,5) has the larger total. |
| Tasks.BeforeIsStrictWeakOrder | task_queue.py:29-32 | The inverted `__lt__` is irreflexive and transitive, and it leaves only equal-priority tasks unordered, so the heap over it is well defined. |
| PriorityHeap.Push | task_queue.py:58 | `heappush` keeps the heap ordered by non-increasing priority and adds exactly the pushed task to the multiset of elements. |
| PriorityHeap.PopIsMinimal | task_queue.py:73 | `heappop` returns a minimum under the inverted `__lt__`: no pending task has strictly higher priority. This is a standalone fact about the pop; `GetTask` needs only `PopKeepsOrder` and the scan lemmas. |
| Queue.Init | task_queue.py:44-48 | A new queue is a valid heap with no pending task. |
| Queue.Add | task_queue.py:50-58 | `add_task` keeps the heap valid. The pending multiset grows by exactly the given task, whatever its id or resources. |
| Queue.FirstFit | task_queue.py:72-81 | The scan stops at the first task in pop order that fits. Every task before it does not fit. Reaching the end means nothing fits. |
| Queue.FirstFitIsBest | task_queue.py:72-79 | The first fitting task in pop order has the highest priority among all pending tasks that fit. |
| Queue.Get | task_queue.py:60-84 | `get_task` meets `PullSpec`. If no pending task fits, it returns `None` and the pending multiset is unchanged (this model even returns the same queue; the source rebuilds the heap). Otherwise it returns a pending task that fits and has maximal priority among fitting tasks, and removes exactly that task. |
| Queue.Requeue | task_queue.py:77-78 | Pushing the buffered rejects back gives a valid heap holding exactly the heap's tasks plus the rejects. |
| Queue.Restore | task_queue.py:77-84 | Both exits of `get_task` (the buffer restored, then the found task or `None` returned) meet `PullSpec` and agree with `Get`. |
| Queue.GetTask | task_queue.py:71-84 | The pop-and-buffer loop meets `PullSpec`. It returns the same task as `Get` and leaves the same pending multiset. The loop invariant says the rejects and the unpopped heap together form the original heap, and that no reject fits. |
| Queue.AddAll | task_queue.py:50-58 | Repeated `add_task` calls grow the pending multiset by exactly the added tasks. |
| Queue.Drain | test_task_queue.py:101-106 | Pulling with `Get` and one budget until `None` yields only fitting tasks, in non-increasing priority. The tasks obtained plus those left equal what was pending, and nothing left fits. `Sessions.DrainTasks` states the same for the source's loop. |
| QueueProperties.GetOnEmptyQueue | task_queue.py:71-84 | A pull on an empty queue returns `None` and the queue stays empty. |
| QueueProperties.GetNoneIffNothingFits | task_queue.py:71-84 | A pull returns `None` if and only if no pending task fits the budget. |
| QueueProperties.EmptyPullIsIdempotent | task_queue.py:80-84 | A `Get` that returns `None` keeps every reject pending; the pending multiset is unchanged (in this model the queue is even the same value). Repeating it with the same budget gives `None` again. |
| QueueProperties.HigherPriorityWins | task_queue.py:72-79 | Take two pending tasks that both fit, one with strictly higher priority. The pull never returns the lower one, and it returns a task of at least the higher priority. |
| QueueProperties.SuccessivePullsNonIncreasing | task_queue.py:72-79 | Two consecutive `Get` pulls with the same budget return tasks of non-increasing priority. `Sessions.PullTraceAccounts` proves it for any number of pulls meeting `PullSpec`. |
| QueueProperties.AddedTaskIsCandidate | task_queue.py:50-58 | After `add_task`, the next pull with a budget the new task fits succeeds, with a task of at least its priority. |
| QueueProperties.ExactBudgetBoundary | task_queue.py:74-76 | A lone task is returned for a budget equal to its demand. It is not returned when any one coordinate of the budget is one unit short. |
| QueueProperties.PullSpecFixesPriority | task_queue.py:60-69 | Any two outcomes allowed by `PullSpec` agree on whether a task is returned and on its priority. Only the choice among equal-priority fitting tasks is open. |
| QueueProperties.DrainAllFitting | task_queue.py:71-84 | Pull with `Get` until `None` with a budget that fits every pending task. Every pending task comes back exactly once (same multiset, same count) and the queue ends empty. |
| QueueProperties.Conservation | test_task_queue.py:96-108 | Add any tasks. Then pull, with a budget every task fits, until `None`. Each added task comes back exactly once (same multiset, same count) and the queue ends empty. |
| QueueProperties.Step | task_queue.py:50-84 | One `add_task` or `get_task` call hands out at most one task. Pending plus handed out equals pending before plus handed in. |
| QueueProperties.Run | task_queue.py:50-84 | Over any interleaving of `Add` and `Get`, final pending plus everything returned equals initial pending plus everything added. No task is lost, duplicated or invented. |
| Sessions.PullTraceAccounts | task_queue.py:71-84 | Along any sequence of successful pulls with one budget, each meeting `PullSpec`: the tasks obtained plus those left are exactly the tasks pending at the start, every task obtained fits, and they come out in non-increasing priority. |
| Sessions.DrainTraceReturnsAll | test_task_queue.py:96-108 | For any sequence of pulls until `None` meeting `PullSpec`, with a budget that fits every task pending at the start: each pending task is obtained exactly once, and nothing is left. |
| Sessions.DrainTasks | test_task_queue.py:101-106 | The consumer loop calling `GetTask` until `None`: everything obtained fits, in non-increasing priority; obtained plus left equals what was pending; nothing left fits. |
| Sessions.DrainAllTasks | test_task_queue.py:96-108 | When every queued task fits, that loop obtains each task exactly once (same multiset, same count) and empties the queue, as the bulk retrieval test asserts. |
| Sessions.RetryEmptyPull | test_task_queue.py:87-94 | A `GetTask` returns `None` exactly when no pending task fits. After it does, the same pull returns `None` again and the pending tasks are the same multiset, although the source rebuilds the heap. |
| Sessions.StepAccounts | task_queue.py:50-84 | Any step meeting its specification (an add growing the pending multiset by its task, or a pull meeting `PullSpec`) conserves pending plus handed out against pending plus handed in. |
| Sessions.SessionConserves | task_queue.py:50-84 | Over any trace of adds and pulls meeting their specifications, final pending plus everything handed out equals initial pending plus everything added, whatever order the queue keeps among equal priorities. |
| Sessions.RunSession | task_queue.py:50-84 | Replaying any interleaving of `add_task` and the source's `get_task` loop (`GetTask`) loses, duplicates and invents no task. |
| QueueProperties.ScenarioBasic | test_task_queue.py:10-14 | Task 1 (demand 2,2,1) is returned for budget (3,3,2). |
| QueueProperties.ScenarioTooLarge | test_task_queue.py:16-20 | Task 2 (demand 4,4,2) is not returned for budget (3,3,1), and the queue still holds it. |
| QueueProperties.ScenarioPriority | test_task_queue.py:22-27 | Between tasks 3 (priority 1) and 4 (priority 10), both fitting, task 4 is returned. |
| QueueProperties.ScenarioMixedDemands | test_task_queue.py:34-39 | Between tasks 5 and 6, with different per-coordinate demands that both fit, task 6 (higher priority) is returned. |
| QueueProperties.ScenarioNothingFits | test_task_queue.py:41-46 | With tasks 7 and 8 both exceeding budget (4,4,4), the pull returns `None`. |

## Left out

- Heap internals: the array layout of `heapq` and its sift-up and sift-down are not modelled. The heap is its pop order, a sequence of non-increasing priority.
- FIFO tie-break among equal priorities, asserted for two tasks at test_task_queue.py:48-54: neither `heapq` nor the requeue loop guarantees it, so no contract claims it.
- Order of skipped tasks: `Get` keeps skipped tasks in place, while `GetTask`, like the source, pushes them back one by one, which may reorder equal priorities. No contract claims where a reject lands among equal priorities; only the pending multiset and heap order are stated.
- Payload: `content` and `result` are carried as inert strings. The queue never reads or writes them.
- Object identity: Python returns the very `Task` object it was given. The model works with values, so "the same task" means an equal value.
- Input validation: none exists in the source, and the model admits negative quantities and priorities just as the source does.
- Concurrency: the source has no locking, and the model is sequential.
- Randomised priorities, stress sizes and timing in test_task_queue.py: these concern test setup, not queue behaviour, and are not modelled.
