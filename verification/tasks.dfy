/** Resource vectors, tasks, the feasibility predicate and the heap comparison
    of task_queue.py. Quantities are unbounded integers, as in Python; the source
    does not reject negative values, so neither does the model. */
module Tasks {

  /** A three-dimensional resource vector: the demand of a task, or the budget
      a consumer offers when it pulls. */
  datatype Resources = Resources(ram: int, cpuCores: int, gpuCount: int)

  /** A unit of work. `content` and `result` are opaque payload the queue
      carries but never inspects or changes. */
  datatype Task = Task(id: int, priority: int, resources: Resources, content: string, result: string)

  /** A demand fits a budget when every coordinate is at most the budget's
      coordinate (equality fits). */
  predicate Fits(need: Resources, available: Resources) {
    && need.ram <= available.ram
    && need.cpuCores <= available.cpuCores
    && need.gpuCount <= available.gpuCount
  }

  /** The inverted heap comparison: `a` sorts before `b` in the min-heap when
      its priority is strictly higher. */
  predicate Before(a: Task, b: Task) {
    a.priority > b.priority
  }

  /** A budget equal to the demand admits it. */
  lemma FitsAtEquality(need: Resources)
    ensures Fits(need, need)
  {
  }

  /** Falling short of the demand in any single coordinate rejects the task,
      however large the other coordinates of the budget are. */
  lemma FitsRejectsAnyShortfall(need: Resources, available: Resources)
    ensures need.ram > available.ram ==> !Fits(need, available)
    ensures need.cpuCores > available.cpuCores ==> !Fits(need, available)
    ensures need.gpuCount > available.gpuCount ==> !Fits(need, available)
  {
  }

  /** A budget at least as large in every coordinate admits everything a
      smaller one admits. */
  lemma FitsIsMonotone(need: Resources, small: Resources, large: Resources)
    requires small.ram <= large.ram && small.cpuCores <= large.cpuCores && small.gpuCount <= large.gpuCount
    ensures Fits(need, small) ==> Fits(need, large)
  {
  }

  /** The worked example of a demand (2, 1, 0): it fits (3, 1, 5) but not
      (1, 1, 5), although the latter budget has the larger total. */
  lemma FitsIsNotASumComparison()
    ensures Fits(Resources(2, 1, 0), Resources(3, 1, 5))
    ensures !Fits(Resources(2, 1, 0), Resources(1, 1, 5))
  {
  }

  /** `Before` is a strict order, so a heap built on it is well defined:
      irreflexive, transitive, and two tasks neither of which precedes the
      other have equal priority. */
  lemma BeforeIsStrictWeakOrder(a: Task, b: Task, c: Task)
    ensures !Before(a, a)
    ensures Before(a, b) && Before(b, c) ==> Before(a, c)
    ensures !Before(a, b) && !Before(b, a) ==> a.priority == b.priority
  {
  }
}
