/** The registry of suspended coroutines: wait key -> the resume tasks filed under it. */
module BlockingQueue {

  type Key = nat

  datatype Blocked<T> = Blocked(waitName: Key, task: T)

  type Registry<T> = map<Key, seq<Blocked<T>>>

  function Filed<T>(m: Registry<T>, k: Key): seq<Blocked<T>> {
    if k in m then m[k] else []
  }

  function Inserted<T>(m: Registry<T>, b: Blocked<T>): Registry<T> {
    m[b.waitName := Filed(m, b.waitName) + [b]]
  }

  function Without<T>(m: Registry<T>, k: Key): Registry<T> {
    m - {k}
  }

  /** The tasks of a list that were filed under k, in their order. */
  function Under<T>(tasks: seq<Blocked<T>>, k: Key): seq<Blocked<T>> {
    if tasks == [] then []
    else (if tasks[0].waitName == k then [tasks[0]] else []) + Under(tasks[1..], k)
  }

  /** Every task is filed under its own key. */
  ghost predicate WellFiled<T>(m: Registry<T>) {
    forall k :: k in m ==> forall i :: 0 <= i < |m[k]| ==> m[k][i].waitName == k
  }

  class BlockingTaskQueue<T> {
    var taskQueue: Registry<T>

    constructor ()
      ensures taskQueue == map[]
    {
      taskQueue := map[];
    }

    method Insert(task: Blocked<T>)
      modifies this
      ensures taskQueue == Inserted(old(taskQueue), task)
      ensures taskQueue.Keys == old(taskQueue).Keys + {task.waitName}
      ensures taskQueue[task.waitName]
           == (if task.waitName in old(taskQueue) then old(taskQueue)[task.waitName] else []) + [task]
      ensures forall k :: k in old(taskQueue) && k != task.waitName ==> taskQueue[k] == old(taskQueue)[k]
    {
      if task.waitName !in taskQueue {
        taskQueue := taskQueue[task.waitName := []];
      }
      taskQueue := taskQueue[task.waitName := taskQueue[task.waitName] + [task]];
    }

    method Take(name: Key) returns (tasks: seq<Blocked<T>>)
      modifies this
      ensures tasks == Filed(old(taskQueue), name)
      ensures taskQueue == Without(old(taskQueue), name)
      ensures tasks == if name in old(taskQueue) then old(taskQueue)[name] else []
      ensures taskQueue.Keys == old(taskQueue).Keys - {name}
      ensures forall k :: k in taskQueue ==> taskQueue[k] == old(taskQueue)[k]
    {
      if name !in taskQueue {
        return [];
      }
      tasks := taskQueue[name];
      taskQueue := taskQueue - {name};
    }

    /** The keys come in no particular order, the tasks of one key in the order they were filed. */
    method TakeAll() returns (all: seq<Blocked<T>>)
      requires WellFiled(taskQueue)
      modifies this
      ensures taskQueue == map[]
      ensures forall k :: Under(all, k) == Filed(old(taskQueue), k)
    {
      all := [];
      var todo := taskQueue.Keys;
      while todo != {}
        invariant todo <= taskQueue.Keys && taskQueue == old(taskQueue)
        invariant GatheredBut(all, taskQueue, todo)
        decreases todo
      {
        var key :| key in todo;
        GatherOne(all, taskQueue, todo, key);
        all := all + taskQueue[key];
        todo := todo - {key};
      }
      taskQueue := map[];
    }
  }

  /** All tasks have been collected except those under the keys still to do. */
  ghost predicate GatheredBut<T>(all: seq<Blocked<T>>, m: Registry<T>, todo: set<Key>) {
    forall k :: Under(all, k) == if k in todo then [] else Filed(m, k)
  }

  lemma GatherOne<T>(all: seq<Blocked<T>>, m: Registry<T>, todo: set<Key>, key: Key)
    requires WellFiled(m) && key in todo && todo <= m.Keys && GatheredBut(all, m, todo)
    ensures GatheredBut(all + m[key], m, todo - {key})
  {
    forall k ensures Under(all + m[key], k) == if k in todo - {key} then [] else Filed(m, k) {
      UnderAppend(all, m[key], k);
      UnderOwnKey(m[key], key, k);
    }
  }

  lemma {:induction false} UnderAppend<T>(a: seq<Blocked<T>>, b: seq<Blocked<T>>, k: Key)
    ensures Under(a + b, k) == Under(a, k) + Under(b, k)
  {
    if a == [] {
      assert a + b == b;
    } else {
      UnderAppend(a[1..], b, k);
      assert (a + b)[1..] == a[1..] + b;
    }
  }

  lemma {:induction false} UnderOwnKey<T>(a: seq<Blocked<T>>, own: Key, k: Key)
    requires forall i :: 0 <= i < |a| ==> a[i].waitName == own
    ensures Under(a, k) == if k == own then a else []
  {
    if a != [] {
      UnderOwnKey(a[1..], own, k);
    }
  }

  // ---------------------------------------------------------------- every run

  /** The registry with its history: all tasks ever filed and all tasks ever handed out. */
  datatype State<T> = State(registry: Registry<T>, filed: seq<Blocked<T>>, handedOut: seq<Blocked<T>>)

  datatype Event<T> = Insert(task: Blocked<T>) | Take(name: Key) | TakeAll(all: seq<Blocked<T>>)

  ghost predicate Enabled<T>(s: State<T>, e: Event<T>) {
    e.TakeAll? ==> forall k :: Under(e.all, k) == Filed(s.registry, k)
  }

  function Step<T>(s: State<T>, e: Event<T>): State<T> {
    match e
    case Insert(b) => s.(registry := Inserted(s.registry, b), filed := s.filed + [b])
    case Take(k) => s.(registry := Without(s.registry, k), handedOut := s.handedOut + Filed(s.registry, k))
    case TakeAll(all) => s.(registry := map[], handedOut := s.handedOut + all)
  }

  ghost predicate Possible<T>(s: State<T>, events: seq<Event<T>>)
    decreases |events|
  {
    events == [] || (Enabled(s, events[0]) && Possible(Step(s, events[0]), events[1..]))
  }

  function Run<T>(s: State<T>, events: seq<Event<T>>): State<T>
    decreases |events|
  {
    if events == [] then s else Run(Step(s, events[0]), events[1..])
  }

  ghost predicate Accounted<T>(s: State<T>, k: Key) {
    Under(s.filed, k) == Under(s.handedOut, k) + Filed(s.registry, k)
  }

  lemma StepAccounts<T>(s: State<T>, e: Event<T>, k: Key)
    requires WellFiled(s.registry) && Accounted(s, k) && Enabled(s, e)
    ensures WellFiled(Step(s, e).registry) && Accounted(Step(s, e), k)
  {
    match e
    case Insert(b) =>
      UnderAppend(s.filed, [b], k);
      var x, y := Under(s.handedOut, k), Filed(s.registry, k);
      assert x + (y + [b]) == (x + y) + [b];
      assert Under([b], k) == if b.waitName == k then [b] else [];
    case Take(name) =>
      UnderAppend(s.handedOut, Filed(s.registry, name), k);
      UnderOwnKey(Filed(s.registry, name), name, k);
    case TakeAll(all) =>
      UnderAppend(s.handedOut, all, k);
  }

  /** At most once, and none forgotten: for every key, the tasks filed under it are those handed out by `take`
      and `take_all` followed by those still blocked, in the order they were filed. */
  lemma {:induction false} HandedOutAtMostOnce<T>(s: State<T>, events: seq<Event<T>>, k: Key)
    requires WellFiled(s.registry) && Accounted(s, k) && Possible(s, events)
    ensures var r := Run(s, events);
            WellFiled(r.registry) && Under(r.filed, k) == Under(r.handedOut, k) + Filed(r.registry, k)
    decreases |events|
  {
    if events != [] {
      StepAccounts(s, events[0], k);
      HandedOutAtMostOnce(Step(s, events[0]), events[1..], k);
    }
  }
}
