/** The unfinished-task counter of a pool, the same in all three pools: `add_task` counts before it pushes and takes
    that back when the push is refused; a worker calls `finish_task` when it is done with a task. */
module IdleCount {

  /** `adding` are the threads that have counted and not pushed yet, or were refused and have not taken it back. */
  datatype Tally = Tally(count: int, adding: nat)

  const NO_TASKS := Tally(0, 0)

  function Counted(t: Tally): Tally {
    Tally(t.count + 1, t.adding + 1)
  }

  function Pushed(t: Tally): Tally
    requires t.adding > 0
  {
    t.(adding := t.adding - 1)
  }

  /** The counter goes down, but never below zero. */
  function Uncount(n: int): int {
    if n > 0 then n - 1 else n
  }

  function Uncounted(t: Tally): Tally
    requires t.adding > 0
  {
    Tally(Uncount(t.count), t.adding - 1)
  }

  function TaskFinished(t: Tally): Tally {
    t.(count := Uncount(t.count))
  }

  /** The counter is what is being added, queued and worked on. */
  predicate Exact(t: Tally, queued: int, working: int) {
    t.count == t.adding + queued + working && queued >= 0 && working >= 0
  }
}
