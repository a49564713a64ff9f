/** The bounded task queue with its two condition variables.  Every critical section (from taking the lock, or
    waking up inside `wait`, to leaving it) is one step.  `notify_one` wakes a waiter of the scheduler's choice,
    a waiter may also wake for no reason, and a woken thread competes for the lock with everyone else. */
module BoundedQueue {
  import opened Wrappers

  datatype PushResult = Ok | Full | Closed

  type Thread = nat

  /** A condition variable: threads asleep in it, and threads notified that have not run yet. */
  datatype CondVar = CondVar(asleep: set<Thread>, woken: set<Thread>)

  function NotifyOne(cv: CondVar, pick: Thread): CondVar {
    if pick in cv.asleep then CondVar(cv.asleep - {pick}, cv.woken + {pick}) else cv
  }

  function NotifyAll(cv: CondVar): CondVar {
    CondVar({}, cv.woken + cv.asleep)
  }

  function Sleep(cv: CondVar, t: Thread): CondVar {
    CondVar(cv.asleep + {t}, cv.woken - {t})
  }

  function Leave(cv: CondVar, t: Thread): CondVar {
    CondVar(cv.asleep - {t}, cv.woken - {t})
  }

  /** Exactly the sleepers among `who` are woken. */
  ghost predicate Wakes(cv: CondVar, after: CondVar, who: set<Thread>) {
    && after.asleep == cv.asleep - who
    && after.woken == cv.woken + (who * cv.asleep)
  }

  /** Thread t comes out of the wait, if it was in it. */
  ghost predicate Arrives(cv: CondVar, after: CondVar, t: Thread, entering: bool) {
    if entering then after == cv else after.asleep == cv.asleep - {t} && after.woken == cv.woken - {t}
  }

  /** The scheduler must wake a sleeper if there is one. */
  ghost predicate Picks(cv: CondVar, pick: Thread) {
    cv.asleep == {} || pick in cv.asleep
  }

  /** `pushed` and `popped` are the history of the queue; the two `told` flags say how far `close` has got. */
  datatype Queue<T> = Queue(
    high: nat, low: nat, items: seq<T>, closed: bool,
    notFull: CondVar, notEmpty: CondVar, fullCount: nat,
    pushed: seq<T>, popped: seq<T>, toldConsumers: bool, toldProducers: bool)

  function NewQueue<T>(capacity: nat): Queue<T> {
    Queue(capacity, if capacity > 1 then capacity / 2 else 1, [], false,
          CondVar({}, {}), CondVar({}, {}), 0, [], [], false, false)
  }

  function Append<T>(q: Queue<T>, task: T): Queue<T> {
    q.(items := q.items + [task], pushed := q.pushed + [task])
  }

  datatype Pushed<T> = Pushed(queue: Queue<T>, result: PushResult)

  function TryPushed<T>(q: Queue<T>, task: T, consumer: Thread, producer: Thread): Pushed<T> {
    if q.closed then Pushed(q, Closed)
    else if |q.items| >= q.high then Pushed(q.(fullCount := q.fullCount + 1), Full)
    else
      var r := Append(q, task);
      var s := r.(notEmpty := NotifyOne(r.notEmpty, consumer));
      if s.low < |s.items| < s.high then Pushed(s.(notFull := NotifyOne(s.notFull, producer)), Ok)
      else Pushed(s, Ok)
  }

  /** The part of `push` after its wait condition holds. */
  function FinishPush<T>(q: Queue<T>, task: T, consumer: Thread): Pushed<T> {
    if q.closed then Pushed(q, Closed)
    else
      var r := Append(q, task);
      var s := r.(notEmpty := NotifyOne(r.notEmpty, consumer));
      if |s.items| <= s.low then Pushed(s.(notFull := NotifyAll(s.notFull)), Ok)
      else Pushed(s, Ok)
  }

  predicate MustWaitToPush<T>(q: Queue<T>) {
    !q.closed && |q.items| >= q.high
  }

  predicate MustWaitToPop<T>(q: Queue<T>) {
    !q.closed && q.items == []
  }

  /** What `pop` answers on a queue with these contents: wait, `false`, or a task. */
  function PopAnswer<T>(items: seq<T>, closed: bool): Option<Option<T>> {
    if items != [] then Some(Some(items[0])) else if closed then Some(None) else None
  }

  /** The part of `pop` after its wait condition holds, on a queue that is not empty. */
  function FinishPop<T>(q: Queue<T>, producer: Thread): Queue<T>
    requires q.items != []
  {
    var r := q.(items := q.items[1..], popped := q.popped + [q.items[0]]);
    if |r.items| <= r.low then r.(notFull := NotifyAll(r.notFull))
    else if |r.items| < r.high then r.(notFull := NotifyOne(r.notFull, producer))
    else r
  }

  // ---------------------------------------------------------------- the code, on its own state

  class BoundedTaskQueue<T> {
    const high: nat
    const low: nat
    var queue: seq<T>
    var closed: bool
    var notFull: CondVar
    var notEmpty: CondVar
    var fullCount: nat
    ghost var pushed: seq<T>
    ghost var popped: seq<T>
    ghost var toldConsumers: bool
    ghost var toldProducers: bool

    ghost function View(): Queue<T>
      reads this
    {
      Queue(high, low, queue, closed, notFull, notEmpty, fullCount, pushed, popped, toldConsumers, toldProducers)
    }

    constructor (capacity: nat)
      ensures View() == NewQueue(capacity)
      ensures high == capacity && low == (if capacity > 1 then capacity / 2 else 1)
    {
      high := capacity;
      low := if capacity > 1 then capacity / 2 else 1;
      queue, closed, fullCount := [], false, 0;
      notFull, notEmpty := CondVar({}, {}), CondVar({}, {});
      pushed, popped, toldConsumers, toldProducers := [], [], false, false;
    }

    /** The non-blocking push: refused by a closed queue and counted by a full one, both of which it leaves as they
        are; otherwise the task goes last, a sleeping consumer is woken, and a producer too if there is room above
        the low mark. */
    method TryPush(task: T, consumer: Thread, producer: Thread) returns (r: PushResult)
      modifies this
      ensures View() == Step(old(View()), Event.TryPush(task, consumer, producer))
      ensures r == if old(closed) then Closed else if |old(queue)| >= high then Full else Ok
      ensures closed == old(closed) && popped == old(popped)
      ensures fullCount == old(fullCount) + if r == Full then 1 else 0
      ensures queue == old(queue) + (if r == Ok then [task] else [])
      ensures pushed == old(pushed) + (if r == Ok then [task] else [])
      ensures Wakes(old(notEmpty), notEmpty, if r == Ok then {consumer} else {})
      ensures Wakes(old(notFull), notFull, if r == Ok && low < |queue| < high then {producer} else {})
    {
      if closed {
        return Closed;
      }
      if |queue| >= high {
        fullCount := fullCount + 1;
        return Full;
      }
      queue := queue + [task];
      pushed := pushed + [task];
      notEmpty := NotifyOne(notEmpty, consumer);
      if |queue| > low && |queue| < high {
        notFull := NotifyOne(notFull, producer);
      }
      r := Ok;
    }

    /** One critical section of the blocking `push` by thread t; `None` says that t went to sleep.  `entering`
        tells a first attempt from one after a wake-up. */
    method Push(t: Thread, entering: bool, task: T, consumer: Thread) returns (r: Option<PushResult>)
      modifies this
      ensures View() == Step(old(View()), Event.Push(t, entering, task, consumer))
      ensures r == if old(closed) then Some(Closed) else if |old(queue)| >= high then None else Some(Ok)
      ensures closed == old(closed) && popped == old(popped)
      ensures fullCount == old(fullCount) + if entering && |old(queue)| >= high then 1 else 0
      ensures queue == old(queue) + (if r == Some(Ok) then [task] else [])
      ensures pushed == old(pushed) + (if r == Some(Ok) then [task] else [])
      ensures Wakes(old(notEmpty), notEmpty, if r == Some(Ok) then {consumer} else {})
      ensures r == None ==> notFull == CondVar(old(notFull).asleep + {t}, old(notFull).woken - {t})
      ensures r != None ==> exists here :: (
                && Arrives(old(notFull), here, t, entering)
                && Wakes(here, notFull, if r == Some(Ok) && |queue| <= low then here.asleep else {}))
    {
      if entering {
        if |queue| >= high {
          fullCount := fullCount + 1;
        }
      } else {
        notFull := Leave(notFull, t);
      }
      if !(closed || |queue| < high) {
        notFull := Sleep(notFull, t);
        return None;
      }
      if closed {
        return Some(Closed);
      }
      queue := queue + [task];
      pushed := pushed + [task];
      notEmpty := NotifyOne(notEmpty, consumer);
      if |queue| <= low {
        notFull := NotifyAll(notFull);
      }
      r := Some(Ok);
    }

    /** One critical section of the blocking `pop` by thread t: `None` says that t went to sleep, `Some(None)` is
        the source's `false`.  An open empty queue puts t to sleep, a closed empty one answers `false`, and any
        other hands out its first task and wakes producers by the marks. */
    method Pop(t: Thread, entering: bool, producer: Thread) returns (r: Option<Option<T>>)
      modifies this
      ensures View() == Step(old(View()), Event.Pop(t, entering, producer))
      ensures r == PopAnswer(old(queue), old(closed))
      ensures r == None <==> old(queue) == [] && !old(closed)
      ensures r == Some(None) <==> old(queue) == [] && old(closed)
      ensures old(queue) != [] ==> r == Some(Some(old(queue)[0]))
      ensures closed == old(closed) && pushed == old(pushed) && fullCount == old(fullCount)
      ensures popped + queue == old(popped + queue)
      ensures |queue| == if old(queue) == [] then 0 else |old(queue)| - 1
      ensures if r == None then notEmpty == CondVar(old(notEmpty).asleep + {t}, old(notEmpty).woken - {t})
              else Arrives(old(notEmpty), notEmpty, t, entering)
      ensures Wakes(old(notFull), notFull,
                if old(queue) == [] then {} else if |queue| <= low then old(notFull).asleep
                else if |queue| < high then {producer} else {})
    {
      ghost var before := popped + queue;
      if !entering {
        notEmpty := Leave(notEmpty, t);
      }
      if !(closed || |queue| > 0) {
        notEmpty := Sleep(notEmpty, t);
        return None;
      }
      if |queue| == 0 {
        return Some(None);
      }
      var out := queue[0];
      popped := popped + [out];
      queue := queue[1..];
      assert popped + queue == before;
      if |queue| <= low {
        notFull := NotifyAll(notFull);
      } else if |queue| < high {
        notFull := NotifyOne(notFull, producer);
      }
      r := Some(Some(out));
    }

    /** `close` sets the flag under the lock, and notifies without it: three steps, between which others run. */
    method CloseFlag()
      modifies this`closed
      ensures View() == Step(old(View()), Event.CloseFlag)
      ensures closed
    {
      closed := true;
    }

    method CloseTellsConsumers()
      requires closed
      modifies this`notEmpty, this`toldConsumers
      ensures View() == Step(old(View()), Event.CloseTellsConsumers)
      ensures toldConsumers && Wakes(old(notEmpty), notEmpty, old(notEmpty).asleep)
    {
      notEmpty := NotifyAll(notEmpty);
      toldConsumers := true;
    }

    method CloseTellsProducers()
      requires closed
      modifies this`notFull, this`toldProducers
      ensures View() == Step(old(View()), Event.CloseTellsProducers)
      ensures toldProducers && Wakes(old(notFull), notFull, old(notFull).asleep)
    {
      notFull := NotifyAll(notFull);
      toldProducers := true;
    }
  }

  function PushArrives<T>(q: Queue<T>, t: Thread, entering: bool): Queue<T> {
    if !entering then q.(notFull := Leave(q.notFull, t))
    else if |q.items| >= q.high then q.(fullCount := q.fullCount + 1)
    else q
  }

  function PopArrives<T>(q: Queue<T>, t: Thread, entering: bool): Queue<T> {
    if entering then q else q.(notEmpty := Leave(q.notEmpty, t))
  }

  // ---------------------------------------------------------------- every interleaving

  datatype Event<T> =
    | TryPush(task: T, consumer: Thread, producer: Thread)
    | Push(t: Thread, entering: bool, task: T, consumer: Thread)
    | Pop(t: Thread, entering: bool, producer: Thread)
    | CloseFlag
    | CloseTellsConsumers
    | CloseTellsProducers

  predicate Outside(cv: CondVar, t: Thread) {
    t !in cv.asleep && t !in cv.woken
  }

  /** Who may take which step: a thread asleep or woken in `wait` continues there and nowhere else; the notifying
      halves of `close` come after its flag; `notify_one` picks a sleeper if there is one. */
  ghost predicate Enabled<T>(q: Queue<T>, e: Event<T>) {
    match e
    case TryPush(_, c, p) => Picks(q.notEmpty, c) && Picks(q.notFull, p)
    case Push(t, entering, _, c) => (entering <==> Outside(q.notFull, t)) && Picks(q.notEmpty, c)
    case Pop(t, entering, p) => (entering <==> Outside(q.notEmpty, t)) && Picks(q.notFull, p)
    case CloseFlag => true
    case CloseTellsConsumers => q.closed
    case CloseTellsProducers => q.closed
  }

  function Step<T>(q: Queue<T>, e: Event<T>): Queue<T> {
    match e
    case TryPush(task, c, p) => TryPushed(q, task, c, p).queue
    case Push(t, entering, task, c) =>
      var r := PushArrives(q, t, entering);
      if MustWaitToPush(r) then r.(notFull := Sleep(r.notFull, t)) else FinishPush(r, task, c).queue
    case Pop(t, entering, p) =>
      var r := PopArrives(q, t, entering);
      if MustWaitToPop(r) then r.(notEmpty := Sleep(r.notEmpty, t))
      else if r.items == [] then r
      else FinishPop(r, p)
    case CloseFlag => q.(closed := true)
    case CloseTellsConsumers => q.(notEmpty := NotifyAll(q.notEmpty), toldConsumers := true)
    case CloseTellsProducers => q.(notFull := NotifyAll(q.notFull), toldProducers := true)
  }

  ghost predicate Possible<T>(q: Queue<T>, events: seq<Event<T>>)
    decreases |events|
  {
    events == [] || (Enabled(q, events[0]) && Possible(Step(q, events[0]), events[1..]))
  }

  function Run<T>(q: Queue<T>, events: seq<Event<T>>): Queue<T>
    decreases |events|
  {
    if events == [] then q else Run(Step(q, events[0]), events[1..])
  }

  /** First in, first out, nothing dropped, never above the high mark. */
  ghost predicate HistoryInv<T>(q: Queue<T>) {
    q.pushed == q.popped + q.items && |q.items| <= q.high
  }

  /** Nobody is asleep and woken at once, and a sleeping producer means the free places are spoken for. */
  ghost predicate ProducersCovered(cv: CondVar, size: nat, high: nat) {
    cv.asleep !! cv.woken && (cv.asleep != {} ==> size + |cv.woken| >= high)
  }

  /** A sleeping consumer means the queued tasks are spoken for. */
  ghost predicate ConsumersCovered(cv: CondVar, size: nat) {
    cv.asleep !! cv.woken && (cv.asleep != {} ==> size <= |cv.woken|)
  }

  ghost predicate ProducersInv<T>(q: Queue<T>) {
    && (!q.closed ==> ProducersCovered(q.notFull, |q.items|, q.high))
    && (q.toldProducers ==> q.closed && q.notFull.asleep == {})
  }

  ghost predicate ConsumersInv<T>(q: Queue<T>) {
    && (!q.closed ==> ConsumersCovered(q.notEmpty, |q.items|))
    && (q.toldConsumers ==> q.closed && q.notEmpty.asleep == {})
  }

  lemma AppendKeepsHistory<T>(q: Queue<T>, task: T)
    requires HistoryInv(q) && |q.items| < q.high
    ensures HistoryInv(Append(q, task))
  {
    assert q.pushed + [task] == q.popped + (q.items + [task]);
  }

  lemma PopKeepsHistory<T>(q: Queue<T>, producer: Thread)
    requires HistoryInv(q) && q.items != []
    ensures HistoryInv(FinishPop(q, producer)) && q.popped <= FinishPop(q, producer).popped
  {
    assert (q.popped + [q.items[0]]) + q.items[1..] == q.popped + q.items;
  }

  /** What a step keeps of the history, seen from any state. */
  ghost predicate Extends<T>(q: Queue<T>, r: Queue<T>) {
    && HistoryInv(r) && r.high == q.high
    && q.popped <= r.popped && q.pushed <= r.pushed
    && (q.closed ==> r.closed && r.pushed == q.pushed)
  }

  lemma PushExtends<T>(q: Queue<T>, task: T, consumer: Thread)
    requires HistoryInv(q) && !MustWaitToPush(q)
    ensures Extends(q, FinishPush(q, task, consumer).queue)
  {
    if !q.closed {
      AppendKeepsHistory(q, task);
    }
  }

  lemma TryPushExtends<T>(q: Queue<T>, task: T, consumer: Thread, producer: Thread)
    requires HistoryInv(q)
    ensures Extends(q, TryPushed(q, task, consumer, producer).queue)
  {
    if !MustWaitToPush(q) && !q.closed {
      AppendKeepsHistory(q, task);
    }
  }

  lemma HistoryStep<T>(q: Queue<T>, e: Event<T>)
    requires HistoryInv(q)
    ensures Extends(q, Step(q, e))
  {
    if e.TryPush? {
      TryPushExtends(q, e.task, e.consumer, e.producer);
    } else if e.Push? {
      var r := PushArrives(q, e.t, e.entering);
      if !MustWaitToPush(r) {
        PushExtends(r, e.task, e.consumer);
      }
    } else if e.Pop? {
      var r := PopArrives(q, e.t, e.entering);
      if r.items != [] {
        PopKeepsHistory(r, e.producer);
      }
    }
  }

  // Counting the woken threads of one condition variable.

  lemma NotifyOneCounts(cv: CondVar, pick: Thread)
    requires cv.asleep !! cv.woken && Picks(cv, pick)
    ensures var r := NotifyOne(cv, pick);
            && r.asleep !! r.woken
            && |r.woken| == |cv.woken| + (if cv.asleep == {} then 0 else 1)
            && (cv.asleep == {} ==> r.asleep == {})
  {
  }

  lemma LeaveCounts(cv: CondVar, t: Thread)
    requires cv.asleep !! cv.woken
    ensures var r := Leave(cv, t);
            r.asleep !! r.woken && r.asleep <= cv.asleep && |cv.woken| - 1 <= |r.woken| <= |cv.woken|
    ensures Outside(cv, t) ==> Leave(cv, t) == cv
  {
  }

  /** A push keeps consumers covered: the task it adds wakes one of them. */
  lemma PushCoversConsumers(cv: CondVar, pick: Thread, size: nat)
    requires ConsumersCovered(cv, size) && Picks(cv, pick)
    ensures ConsumersCovered(NotifyOne(cv, pick), size + 1)
  {
    NotifyOneCounts(cv, pick);
  }

  /** A pop keeps producers covered: the place it frees wakes one of them. */
  lemma PopCoversProducers(cv: CondVar, pick: Thread, size: nat, high: nat)
    requires ProducersCovered(cv, size + 1, high) && Picks(cv, pick)
    ensures ProducersCovered(NotifyOne(cv, pick), size, high)
  {
    NotifyOneCounts(cv, pick);
  }

  /** A producer that leaves the wait has taken a place or found none. */
  lemma LeavingProducer(cv: CondVar, t: Thread, size: nat, high: nat)
    requires ProducersCovered(cv, size, high)
    ensures size < high ==> ProducersCovered(Leave(cv, t), size + 1, high)
    ensures size >= high ==> ProducersCovered(Sleep(Leave(cv, t), t), size, high)
    ensures Outside(cv, t) ==> Leave(cv, t) == cv
  {
    LeaveCounts(cv, t);
  }

  lemma LeavingConsumer(cv: CondVar, t: Thread, size: nat)
    requires ConsumersCovered(cv, size)
    ensures size > 0 ==> ConsumersCovered(Leave(cv, t), size - 1)
    ensures size == 0 ==> ConsumersCovered(Sleep(Leave(cv, t), t), size)
    ensures Outside(cv, t) ==> Leave(cv, t) == cv
  {
    LeaveCounts(cv, t);
  }

  lemma PushKeepsProducers<T>(q: Queue<T>, e: Event<T>)
    requires HistoryInv(q) && ProducersInv(q) && Enabled(q, e) && e.Push?
    ensures ProducersInv(Step(q, e))
  {
    if !q.closed {
      LeavingProducer(q.notFull, e.t, |q.items|, q.high);
    }
  }

  lemma PushKeepsConsumers<T>(q: Queue<T>, e: Event<T>)
    requires HistoryInv(q) && ConsumersInv(q) && Enabled(q, e) && (e.Push? || e.TryPush?)
    ensures ConsumersInv(Step(q, e))
  {
    if !q.closed && |q.items| < q.high {
      PushCoversConsumers(q.notEmpty, e.consumer, |q.items|);
    }
  }

  lemma TryPushKeepsProducers<T>(q: Queue<T>, e: Event<T>)
    requires HistoryInv(q) && ProducersInv(q) && Enabled(q, e) && e.TryPush?
    ensures ProducersInv(Step(q, e))
  {
    if !q.closed && |q.items| < q.high {
      NotifyOneCounts(q.notFull, e.producer);
    }
  }

  lemma PopKeepsProducers<T>(q: Queue<T>, e: Event<T>)
    requires HistoryInv(q) && ProducersInv(q) && Enabled(q, e) && e.Pop?
    ensures ProducersInv(Step(q, e))
  {
    if !q.closed && q.items != [] {
      PopCoversProducers(q.notFull, e.producer, |q.items| - 1, q.high);
    }
  }

  lemma PopKeepsConsumers<T>(q: Queue<T>, e: Event<T>)
    requires HistoryInv(q) && ConsumersInv(q) && Enabled(q, e) && e.Pop?
    ensures ConsumersInv(Step(q, e))
  {
    if !q.closed {
      LeavingConsumer(q.notEmpty, e.t, |q.items|);
    }
  }

  lemma WakeStep<T>(q: Queue<T>, e: Event<T>)
    requires HistoryInv(q) && ProducersInv(q) && ConsumersInv(q) && Enabled(q, e)
    ensures ProducersInv(Step(q, e)) && ConsumersInv(Step(q, e))
  {
    if e.Push? {
      PushKeepsProducers(q, e);
      PushKeepsConsumers(q, e);
    } else if e.TryPush? {
      TryPushKeepsProducers(q, e);
      PushKeepsConsumers(q, e);
    } else if e.Pop? {
      PopKeepsProducers(q, e);
      PopKeepsConsumers(q, e);
    }
  }

  lemma {:induction false} EveryRunKeeps<T>(q: Queue<T>, events: seq<Event<T>>)
    requires HistoryInv(q) && ProducersInv(q) && ConsumersInv(q) && Possible(q, events)
    ensures var r := Run(q, events); Extends(q, r) && ProducersInv(r) && ConsumersInv(r)
    decreases |events|
  {
    if events != [] {
      HistoryStep(q, events[0]);
      WakeStep(q, events[0]);
      EveryRunKeeps(Step(q, events[0]), events[1..]);
    }
  }

  /** No lost wake-up, for any number of threads and any interleaving: while the queue is open, a producer that
      still sleeps means the free places are spoken for by woken producers, a consumer that still sleeps means
      the queued tasks are spoken for by woken consumers; and after `close` has notified, nobody sleeps. */
  lemma NoLostWakeup<T>(capacity: nat, events: seq<Event<T>>)
    requires Possible(NewQueue(capacity), events)
    ensures var q := Run(NewQueue(capacity), events);
            && (!q.closed && q.notFull.asleep != {} ==> q.high - |q.items| <= |q.notFull.woken|)
            && (!q.closed && q.notEmpty.asleep != {} ==> |q.items| <= |q.notEmpty.woken|)
            && (q.toldProducers ==> q.notFull.asleep == {})
            && (q.toldConsumers ==> q.notEmpty.asleep == {})
  {
    EveryRunKeeps(NewQueue<T>(capacity), events);
  }

  /** What a `pop` is told, in every interleaving and by the history alone: a task is waiting exactly if not all
      pushed ones have been popped, and it is handed out in its turn; whoever is told `false` has seen the queue
      closed and everything pushed popped; and whoever has to wait found it open with everything popped, is
      asleep afterwards, and is woken by the next push or by `close`. */
  lemma PopIsTold<T>(capacity: nat, events: seq<Event<T>>, t: Thread, entering: bool, producer: Thread)
    requires Possible(NewQueue(capacity), events)
    requires Enabled(Run(NewQueue(capacity), events), Event.Pop(t, entering, producer))
    ensures var q := Run(NewQueue(capacity), events);
            var told, r := PopAnswer(q.items, q.closed), Step(q, Event.Pop(t, entering, producer));
            && q.popped <= q.pushed
            && (told == Some(None) <==> q.closed && q.popped == q.pushed)
            && (told == None <==> !q.closed && q.popped == q.pushed)
            && (q.popped != q.pushed ==> |q.popped| < |q.pushed| && told == Some(Some(q.pushed[|q.popped|])))
            && r.popped == q.popped + (if q.popped == q.pushed then [] else [q.pushed[|q.popped|]])
            && r.pushed == q.pushed
            && (told == None ==> t in r.notEmpty.asleep)
            && (told != None ==> Outside(r.notEmpty, t))
  {
    EveryRunKeeps(NewQueue<T>(capacity), events);
    var q := Run(NewQueue<T>(capacity), events);
    assert |q.pushed| == |q.popped| + |q.items|;
    if q.items == [] {
      assert q.popped + q.items == q.popped;
    } else {
      assert q.pushed[|q.popped|] == q.items[0];
    }
  }

  /** No thread is ever kept out of the lock: each may push and pop in its way, whichever sleepers the scheduler
      wakes. */
  lemma NobodyIsKeptOut<T>(q: Queue<T>, t: Thread, task: T, consumer: Thread, producer: Thread)
    requires consumer in q.notEmpty.asleep || q.notEmpty.asleep == {}
    requires producer in q.notFull.asleep || q.notFull.asleep == {}
    ensures Enabled(q, Event.TryPush(task, consumer, producer))
    ensures exists entering :: Enabled(q, Event.Push(t, entering, task, consumer))
    ensures exists entering :: Enabled(q, Event.Pop(t, entering, producer))
    ensures Enabled(q, Event.CloseFlag)
    ensures q.closed ==> Enabled(q, Event.CloseTellsConsumers) && Enabled(q, Event.CloseTellsProducers)
  {
    assert Enabled(q, Event.Push(t, Outside(q.notFull, t), task, consumer));
    assert Enabled(q, Event.Pop(t, Outside(q.notEmpty, t), producer));
  }

  /** The queue's history: what went in is what came out followed by what is queued, in order, within the
      high mark. */
  lemma FirstInFirstOut<T>(capacity: nat, events: seq<Event<T>>)
    requires Possible(NewQueue(capacity), events)
    ensures var q := Run(NewQueue(capacity), events); q.pushed == q.popped + q.items && |q.items| <= capacity
  {
    EveryRunKeeps(NewQueue<T>(capacity), events);
  }

  /** After `close` nothing more goes in, and consumers go on popping until the queue is empty: a `pop` answers
      `false` exactly when the queue is closed and everything ever pushed has been popped. */
  lemma DrainAfterClose<T>(capacity: nat, before: seq<Event<T>>, after: seq<Event<T>>)
    requires Possible(NewQueue(capacity), before)
    requires Run(NewQueue(capacity), before).closed && Possible(Run(NewQueue(capacity), before), after)
    ensures var q, r := Run(NewQueue(capacity), before), Run(Run(NewQueue(capacity), before), after);
            && r.closed && r.pushed == q.pushed && r.popped <= q.pushed
            && !MustWaitToPop(r)
            && (r.items == [] <==> r.popped == q.pushed)
  {
    EveryRunKeeps(NewQueue<T>(capacity), before);
    EveryRunKeeps(Run(NewQueue<T>(capacity), before), after);
    var r := Run(Run(NewQueue<T>(capacity), before), after);
    assert |r.pushed| == |r.popped| + |r.items|;
  }
}
