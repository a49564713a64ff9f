/** The coroutine runtime step by step: when a worker or a DB worker has a next step and what that step does, in every
    reachable state, and that nobody is woken whose query has not been answered. */
module CoroutineSteps {
  import BQ = BlockingQueue
  import opened CoroutineRuntime
  import opened CoroutineProofs

  // ---------------------------------------------------------------- no wake-up without an answer

  /** This step is the end of the query of key k. */
  predicate Answers(s: Runtime, e: Event, k: BQ.Key) {
    e.DbAnswer? && e.d in s.dbWorkers && s.dbWorkers[e.d] == Querying(k)
  }

  /** This step posts the wake-up of k for a query that never ran: the connection pool has stopped. */
  predicate GivesUp(s: Runtime, e: Event, k: BQ.Key) {
    e.DbPostStopped? && e.d in s.dbWorkers && s.dbWorkers[e.d] == Querying(k)
  }

  /** Somewhere in this run the query of k was answered. */
  ghost predicate WasAnswered(s: Runtime, events: seq<Event>, k: BQ.Key)
    requires Possible(s, events)
    decreases |events|
  {
    events != [] && (Answers(s, events[0], k) || WasAnswered(Step(s, events[0]), events[1..], k))
  }

  ghost predicate WasGivenUp(s: Runtime, events: seq<Event>, k: BQ.Key)
    requires Possible(s, events)
    decreases |events|
  {
    events != [] && (GivesUp(s, events[0], k) || WasGivenUp(Step(s, events[0]), events[1..], k))
  }

  /** The wake-up of k has been posted, or refused by a closed work pool. */
  predicate Woken(s: Runtime, k: BQ.Key) {
    k in s.keys && PastDb(s.keys[k].phase)
  }

  predicate HasAnswer(s: Runtime, k: BQ.Key) {
    exists d :: d in s.dbWorkers && s.dbWorkers[d] == Answered(k)
  }

  predicate OfDbPool(e: Event) {
    e.SubmitQuery? || e.DbPop? || e.DbAnswer? || e.DbPost? || e.DbPostStopped? || e.DbFinish?
  }

  predicate OfRegistry(e: Event) {
    e.PopTask? || e.Suspend? || e.TakeBlocked?
  }

  lemma WokenInDbPool(s: Runtime, e: Event, k: BQ.Key)
    requires Enabled(s, e) && OfDbPool(e) && Woken(Step(s, e), k) && !Woken(s, k)
    ensures (e.DbPost? && HasAnswer(s, k)) || GivesUp(s, e, k)
  {
    if e.DbPost? {
      assert s.dbWorkers[e.d] == Answered(k);
    }
  }

  lemma WokenAtRegistry(s: Runtime, e: Event, k: BQ.Key)
    requires TracesInv(s) && Enabled(s, e) && OfRegistry(e) && Woken(Step(s, e), k)
    ensures Woken(s, k)
  {
    if e.PopTask? {
      WokenAtPop(s, e.w, k);
    } else if e.TakeBlocked? {
      assert Step(s, e) == TookBlocked(s, e.w);
    }
  }

  lemma WokenAtPop(s: Runtime, w: Thread, k: BQ.Key)
    requires TracesInv(s) && CanPop(s, w) && Woken(Popped(s, w), k)
    ensures Woken(s, k)
  {
  }

  lemma WokenElsewhere(s: Runtime, e: Event, k: BQ.Key)
    requires Enabled(s, e) && !OfDbPool(e) && !OfRegistry(e)
    ensures Woken(Step(s, e), k) ==> Woken(s, k)
  {
  }

  /** A key is woken by one of two steps of a DB worker: after the answer, or without one. */
  lemma WokenBy(s: Runtime, e: Event, k: BQ.Key)
    requires TracesInv(s) && Enabled(s, e) && Woken(Step(s, e), k) && !Woken(s, k)
    ensures (e.DbPost? && HasAnswer(s, k)) || GivesUp(s, e, k)
  {
    if OfDbPool(e) {
      WokenInDbPool(s, e, k);
    } else if OfRegistry(e) {
      WokenAtRegistry(s, e, k);
    } else {
      WokenElsewhere(s, e, k);
    }
  }

  lemma AnsweredBy(s: Runtime, e: Event, k: BQ.Key)
    requires Enabled(s, e) && HasAnswer(Step(s, e), k)
    ensures HasAnswer(s, k) || Answers(s, e, k)
  {
    StepDoes(s, e);
    assert Step(s, e).dbWorkers == NextOfDb(s, e);
  }

  lemma {:induction false} AnswersComeFirst(s: Runtime, events: seq<Event>, k: BQ.Key)
    requires KeysInv(s) && Possible(s, events)
    ensures Woken(Run(s, events), k) ==>
              Woken(s, k) || HasAnswer(s, k) || WasAnswered(s, events, k) || WasGivenUp(s, events, k)
    ensures HasAnswer(Run(s, events), k) ==> HasAnswer(s, k) || WasAnswered(s, events, k)
    decreases |events|
  {
    if events != [] {
      var t := Step(s, events[0]);
      KeysStep(s, events[0]);
      AnswersComeFirst(t, events[1..], k);
      if Woken(t, k) && !Woken(s, k) {
        WokenBy(s, events[0], k);
      }
      if HasAnswer(t, k) {
        AnsweredBy(s, events[0], k);
      }
    }
  }

  /** Nobody is woken too early.  In every run, shutdown included: a key whose wake-up is queued, being run or over had
      its query answered, or given up for want of a connection. */
  lemma WokenAfterTheAnswer(workers: nat, dbWorkers: nat, events: seq<Event>, k: BQ.Key)
    requires Possible(NewRuntime(workers, dbWorkers), events)
    requires Woken(Run(NewRuntime(workers, dbWorkers), events), k)
    ensures WasAnswered(NewRuntime(workers, dbWorkers), events, k)
            || WasGivenUp(NewRuntime(workers, dbWorkers), events, k)
  {
    StartKeeps(workers, dbWorkers);
    AnswersComeFirst(NewRuntime(workers, dbWorkers), events, k);
  }

  // ---------------------------------------------------------------- who can go on

  /** A DB worker takes a job if one is queued; its query may end or be given up; an answer waits for nothing but the
      guard of the suspending task and for its turn to add. */
  ghost predicate DbWorkerMay(s: Runtime, d: Thread)
    requires d in s.dbWorkers
  {
    var x := s.dbWorkers[d];
    && (Enabled(s, DbPop(d)) <==> x.DbIdle? && s.dbHead < |s.db|)
    && (Enabled(s, DbAnswer(d)) <==> x.Querying?)
    && (Enabled(s, DbPostStopped(d)) <==> x.Querying? && s.workTally.adding > 0)
    && (x.Answered? ==> x.key in s.keys)
    && (Enabled(s, DbPost(d)) <==> x.Answered? && s.keys[x.key].guard in s.finished && s.workTally.adding > 0)
    && (Enabled(s, DbFinish(d)) <==> x.DbDone?)
  }

  /** A worker takes a task if one is queued, and from then on always has a step, unless it waits for its turn to add to
      a queue; a business function may end or suspend, as it likes. */
  ghost predicate WorkerMay(s: Runtime, w: Thread)
    requires w in s.workers
  {
    var x := s.workers[w];
    && (Enabled(s, PopTask(w)) <==> x.Idle? && s.workHead < |s.work|)
    && (forall k :: Enabled(s, Suspend(w, k)) <==> x.InFn? && k !in s.keys)
    && (Enabled(s, FnEnds(w)) <==> x.InFn?)
    && (Enabled(s, SubmitQuery(w)) <==> x.Awaiting? && !x.submitted && s.dbTally.adding > 0)
    && (Enabled(s, FnSuspended(w)) <==> x.Awaiting? && x.submitted)
  }

  ghost predicate WorkerMayEnd(s: Runtime, w: Thread)
    requires w in s.workers
  {
    var x := s.workers[w];
    && (Enabled(s, SettleCredit(w)) <==> x.Ending?)
    && (forall needResume :: Enabled(s, GiveSlot(w, needResume)) <==> x.GivingSlot?)
    && (Enabled(s, Check(w)) <==> x.Checking?)
    && (Enabled(s, TakeBlocked(w)) <==> x.OnEvent?)
    && (Enabled(s, PostResume(w)) <==> x.Handing? && x.tasks != [] && s.workTally.adding > 0)
    && (Enabled(s, EventEnds(w)) <==> x.Handing? && x.tasks == [])
    && (Enabled(s, FinishTask(w)) <==> x.Done?)
  }

  /** The other threads: nobody is kept from counting, settling or closing; a push comes after its count. */
  ghost predicate OthersMay(s: Runtime) {
    && (forall m :: Enabled(s, Submit(m)) <==> m !in s.place && !s.workClosed && s.workTally.adding > 0)
    && (forall k :: Enabled(s, PostSettled(k)) <==>
          BQ.Filed(s.settling, k) != [] && s.workTally.adding > 0)
    && Enabled(s, TakeAllBlocked) && Enabled(s, CloseWork) && Enabled(s, CloseDb)
    && Enabled(s, CountWork) && (Enabled(s, UncountWork) <==> s.workTally.adding > 0)
    && Enabled(s, CountDb) && (Enabled(s, UncountDb) <==> s.dbTally.adding > 0)
  }

  lemma OtherSteps(s: Runtime)
    ensures OthersMay(s)
  {
  }

  lemma DbWorkerSteps(s: Runtime, d: Thread)
    requires TracesInv(s) && d in s.dbWorkers
    ensures DbWorkerMay(s, d)
  {
  }

  lemma WorkerSteps(s: Runtime, w: Thread)
    requires TracesInv(s) && w in s.workers
    ensures WorkerMay(s, w)
  {
  }

  lemma WorkerEnds(s: Runtime, w: Thread)
    requires TracesInv(s) && w in s.workers
    ensures WorkerMayEnd(s, w)
  {
  }

  /** In every run, shutdown included, each worker, each DB worker and everybody else has exactly these steps. */
  lemma NobodyIsStuck(workers: nat, dbWorkers: nat, events: seq<Event>)
    requires Possible(NewRuntime(workers, dbWorkers), events)
    ensures var s := Run(NewRuntime(workers, dbWorkers), events);
      && (forall w :: w in s.workers ==> WorkerMay(s, w) && WorkerMayEnd(s, w))
      && (forall d :: d in s.dbWorkers ==> DbWorkerMay(s, d))
      && OthersMay(s)
  {
    StartKeeps(workers, dbWorkers);
    EveryRunKeepsKeys(NewRuntime(workers, dbWorkers), events);
    var s := Run(NewRuntime(workers, dbWorkers), events);
    forall w | w in s.workers ensures WorkerMay(s, w) && WorkerMayEnd(s, w) {
      WorkerSteps(s, w);
      WorkerEnds(s, w);
    }
    forall d | d in s.dbWorkers ensures DbWorkerMay(s, d) {
      DbWorkerSteps(s, d);
    }
    OtherSteps(s);
  }

  // ---------------------------------------------------------------- and what the steps do

  /** What a step appends to the work queue. */
  function ToWork(s: Runtime, e: Event): seq<Task> {
    if s.workClosed then []
    else match e
      case Submit(m) => [RunFlow(m)]
      case PostResume(w) =>
        if w in s.workers && s.workers[w].Handing? && s.workers[w].tasks != []
        then [RunFlow(s.workers[w].tasks[0].task)] else []
      case PostSettled(k) => if BQ.Filed(s.settling, k) != [] then [RunFlow(s.settling[k][0].task)] else []
      case DbPost(d) => if d in s.dbWorkers && Serving(s.dbWorkers[d]) then [WakeUp(s.dbWorkers[d].key)] else []
      case DbPostStopped(d) => if d in s.dbWorkers && Serving(s.dbWorkers[d]) then [WakeUp(s.dbWorkers[d].key)] else []
      case _ => []
  }

  function ToDb(s: Runtime, e: Event): seq<BQ.Key> {
    if !s.dbClosed && e.SubmitQuery? && e.w in s.workers && s.workers[e.w].Awaiting? then [s.workers[e.w].key] else []
  }

  function ToRegistry(s: Runtime, e: Event): BQ.Registry<Flow>
    requires Enabled(s, e)
  {
    match e
    case Suspend(w, k) => s.registry[k := BQ.Filed(s.registry, k) + [BQ.Blocked(k, s.workers[w].flow)]]
    case TakeBlocked(w) => s.registry - {s.workers[w].key}
    case TakeAllBlocked => map[]
    case _ => s.registry
  }

  function ToSettling(s: Runtime, e: Event): BQ.Registry<Flow>
    requires Enabled(s, e)
  {
    match e
    case TakeAllBlocked => s.settling + s.registry
    case PostSettled(k) => if |s.settling[k]| == 1 then s.settling - {k} else s.settling[k := s.settling[k][1..]]
    case _ => s.settling
  }

  /** The steps of a worker. */
  predicate OfWorker(e: Event) {
    || e.PopTask? || e.Suspend? || e.SubmitQuery? || e.FnEnds? || e.FnSuspended? || e.SettleCredit? || e.GiveSlot?
    || e.Check? || e.TakeBlocked? || e.PostResume? || e.EventEnds? || e.FinishTask?
  }

  /** Where a step leaves its worker: from taking a task to the end of it, with what it took, filed or was given. */
  function NextOf(s: Runtime, e: Event): Worker
    requires Enabled(s, e) && OfWorker(e)
  {
    var x := s.workers[e.w];
    match e
    case PopTask(_) =>
      (match s.work[s.workHead]
       case RunFlow(m) => InFn(m, |s.guards|)
       case WakeUp(k) => OnEvent(k))
    case Suspend(_, k) => Awaiting(x.flow, k, x.guard, false)
    case SubmitQuery(_) => Awaiting(x.flow, x.key, x.guard, true)
    case FnEnds(_) => Ending(x.flow)
    case SettleCredit(_) => GivingSlot(x.flow)
    case GiveSlot(_, needResume) => Checking(x.flow, needResume)
    case TakeBlocked(_) => Handing(BQ.Filed(s.registry, x.key))
    case PostResume(_) => Handing(x.tasks[1..])
    case FinishTask(_) => Idle
    case _ => Done
  }

  function NextOfDb(s: Runtime, e: Event): map<Thread, DbWorker>
    requires Enabled(s, e)
  {
    match e
    case DbPop(d) => s.dbWorkers[d := Querying(s.db[s.dbHead])]
    case DbAnswer(d) => s.dbWorkers[d := Answered(s.dbWorkers[d].key)]
    case DbPost(d) => s.dbWorkers[d := DbDone]
    case DbPostStopped(d) => s.dbWorkers[d := DbDone]
    case DbFinish(d) => s.dbWorkers[d := DbIdle]
    case _ => s.dbWorkers
  }

  /** The queues are logs: a task handed on is appended, as it is and in turn, and only the pool's own worker takes one;
      nothing but a closing closes them. */
  ghost predicate QueuesDo(s: Runtime, e: Event, r: Runtime) {
    && r.work == s.work + ToWork(s, e) && r.db == s.db + ToDb(s, e)
    && r.workHead == s.workHead + (if e.PopTask? then 1 else 0)
    && r.dbHead == s.dbHead + (if e.DbPop? then 1 else 0)
    && r.workClosed == (s.workClosed || e.CloseWork?) && r.dbClosed == (s.dbClosed || e.CloseDb?)
    && r.workTally.adding == s.workTally.adding + Adds(e.CountWork?, e.UncountWork?) - |ToWork(s, e)|
    && r.dbTally.adding == s.dbTally.adding + Adds(e.CountDb?, e.UncountDb?) - |ToDb(s, e)|
  }

  function Adds(counted: bool, uncounted: bool): int {
    if counted then 1 else if uncounted then -1 else 0
  }

  /** A flow is filed by its own suspension, and taken out by its wake-up or by `take_all`; a suspend guard is new with
      each run of a flow, and finished when the function returns. */
  ghost predicate FilesDo(s: Runtime, e: Event, r: Runtime)
    requires Enabled(s, e)
  {
    && r.registry == ToRegistry(s, e) && r.settling == ToSettling(s, e)
    && r.guards == s.guards + (if e.PopTask? && s.work[s.workHead].RunFlow? then [e.w] else [])
    && r.finished == s.finished + (if e.FnEnds? || e.FnSuspended? then {s.workers[e.w].guard} else {})
  }

  /** And no thread moves another. */
  ghost predicate ThreadsDo(s: Runtime, e: Event, r: Runtime)
    requires Enabled(s, e)
  {
    && r.workers == (if OfWorker(e) then s.workers[e.w := NextOf(s, e)] else s.workers)
    && r.dbWorkers == NextOfDb(s, e)
  }

  ghost predicate Does(s: Runtime, e: Event, r: Runtime)
    requires Enabled(s, e)
  {
    QueuesDo(s, e, r) && FilesDo(s, e, r) && ThreadsDo(s, e, r)
  }

  lemma PopHasEffect(s: Runtime, w: Thread)
    requires CanPop(s, w)
    ensures var r, x := Popped(s, w), s.work[s.workHead];
      && r == s.(workHead := s.workHead + 1, guards := r.guards, keys := r.keys, place := r.place, workers := r.workers)
      && r.guards == s.guards + (if x.RunFlow? then [w] else [])
      && r.workers == s.workers[w := if x.RunFlow? then InFn(x.flow, |s.guards|) else OnEvent(x.key)]
  {
  }

  lemma DoesAtPop(s: Runtime, e: Event)
    requires Enabled(s, e) && e.PopTask?
    ensures Does(s, e, Step(s, e))
  {
    PopHasEffect(s, e.w);
    assert Step(s, e) == Popped(s, e.w);
  }

  lemma DoesInAwait(s: Runtime, e: Event)
    requires Enabled(s, e) && (e.Suspend? || e.SubmitQuery? || e.FnSuspended?)
    ensures Does(s, e, Step(s, e))
  {
  }

  lemma DoesAtEnd(s: Runtime, e: Event)
    requires Enabled(s, e)
    requires e.FnEnds? || e.SettleCredit? || e.GiveSlot? || e.Check? || e.EventEnds? || e.FinishTask?
    ensures Does(s, e, Step(s, e))
  {
  }

  lemma DoesAtEvent(s: Runtime, e: Event)
    requires Enabled(s, e) && (e.TakeBlocked? || e.PostResume?)
    ensures Does(s, e, Step(s, e))
  {
  }

  lemma DoesInDb(s: Runtime, e: Event)
    requires Enabled(s, e) && (e.DbPop? || e.DbAnswer? || e.DbFinish?)
    ensures Does(s, e, Step(s, e))
  {
  }

  lemma DoesAtPost(s: Runtime, e: Event)
    requires Enabled(s, e) && (e.DbPost? || e.DbPostStopped?)
    ensures Does(s, e, Step(s, e))
  {
  }

  lemma DoesAtSubmit(s: Runtime, e: Event)
    requires Enabled(s, e) && (e.Submit? || e.PostSettled?)
    ensures Does(s, e, Step(s, e))
  {
  }

  lemma DoesElsewhere(s: Runtime, e: Event)
    requires Enabled(s, e) && !OfWorker(e) && !e.Submit? && !e.PostSettled?
    requires !e.DbPop? && !e.DbAnswer? && !e.DbPost? && !e.DbPostStopped? && !e.DbFinish?
    ensures Does(s, e, Step(s, e))
  {
  }

  /** Every step does just that. */
  lemma StepDoes(s: Runtime, e: Event)
    requires Enabled(s, e)
    ensures Does(s, e, Step(s, e))
  {
    if e.PopTask? {
      DoesAtPop(s, e);
    } else if e.Suspend? || e.SubmitQuery? || e.FnSuspended? {
      DoesInAwait(s, e);
    } else if e.TakeBlocked? || e.PostResume? {
      DoesAtEvent(s, e);
    } else if OfWorker(e) {
      DoesAtEnd(s, e);
    } else if e.DbPop? || e.DbAnswer? || e.DbFinish? {
      DoesInDb(s, e);
    } else if e.DbPost? || e.DbPostStopped? {
      DoesAtPost(s, e);
    } else if e.Submit? || e.PostSettled? {
      DoesAtSubmit(s, e);
    } else {
      DoesElsewhere(s, e);
    }
  }
}
