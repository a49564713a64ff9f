/** What holds in every run of the coroutine runtime: who may be on a coroutine, where a flow is, that no wake-up is
    missed and none comes twice, what an idle pool is - and exactly when a shutdown takes the first of these away. */
module CoroutineTheorems {
  import BQ = BlockingQueue
  import opened IdleCount
  import opened CoroutineRuntime
  import opened CoroutineProofs
  import CS = CoroutineSteps

  // ---------------------------------------------------------------- coroutine exclusivity

  /** Nothing that could resume the flow of worker w, which is still in `await_suspend`. */
  ghost predicate NothingAhead(s: Runtime, w: Thread)
    requires w in s.workers && s.workers[w].Awaiting?
  {
    var m, k := s.workers[w].flow, s.workers[w].key;
    && (forall t :: s.workHead <= t < |s.work| ==> s.work[t] != RunFlow(m) && s.work[t] != WakeUp(k))
    && (forall v :: v in s.workers ==>
          && s.workers[v] != OnEvent(k)
          && (s.workers[v].Handing? ==> forall i :: 0 <= i < |s.workers[v].tasks| ==> s.workers[v].tasks[i].task != m))
    && (forall j :: j in s.settling ==> forall i :: 0 <= i < |s.settling[j]| ==> s.settling[j][i].task != m)
  }

  /** No suspension in progress can be overtaken by its own resumption. */
  ghost predicate NoneOvertaken(s: Runtime) {
    forall w :: w in s.workers && s.workers[w].Awaiting? ==> NothingAhead(s, w)
  }

  ghost predicate OneWorkerPerFlow(s: Runtime) {
    forall v, w | v in s.workers && w in s.workers && v != w ::
      OnCoroutine(s.workers[v]) && OnCoroutine(s.workers[w]) ==> s.workers[v].flow != s.workers[w].flow
  }

  lemma NothingAheadOf(s: Runtime, w: Thread)
    requires Inv(s) && w in s.workers && s.workers[w].Awaiting?
    ensures NothingAhead(s, w)
  {
    var m, k := s.workers[w].flow, s.workers[w].key;
    assert s.place[m] == Executing(w) && s.keys[k].guard !in s.finished;
  }

  lemma InvIsExclusive(s: Runtime)
    requires Inv(s)
    ensures OneWorkerPerFlow(s) && NoneOvertaken(s)
  {
    forall w | w in s.workers && s.workers[w].Awaiting? ensures NothingAhead(s, w) {
      NothingAheadOf(s, w);
    }
  }

  /** Coroutine exclusivity.  In every run whose shutdown steps find no suspension in progress - and so in every run
      without such steps - no two workers are on the same flow's coroutine; and while a worker is still inside
      `await_suspend` of a flow, no resume task of that flow is queued or in anyone's hands, and not even its wake-up
      task is queued or running. */
  lemma CoroutineExclusivity(workers: nat, dbWorkers: nat, events: seq<Event>)
    requires Possible(NewRuntime(workers, dbWorkers), events)
    requires CarefulRun(NewRuntime(workers, dbWorkers), events)
    ensures var s := Run(NewRuntime(workers, dbWorkers), events); OneWorkerPerFlow(s) && NoneOvertaken(s)
  {
    StartKeeps(workers, dbWorkers);
    EveryRunKeeps(NewRuntime(workers, dbWorkers), events);
    InvIsExclusive(Run(NewRuntime(workers, dbWorkers), events));
  }

  // ---------------------------------------------------------------- exactly when a shutdown step is harmless

  /** Whatever has been kept so far, one more step keeps it if and only if it is careful: `take_all` while a worker is
      in `await_suspend`, or a wake-up posted past an unfinished guard, lets a suspension be overtaken at once. */
  lemma CarefulExactly(workers: nat, dbWorkers: nat, events: seq<Event>, e: Event)
    requires Possible(NewRuntime(workers, dbWorkers), events) && CarefulRun(NewRuntime(workers, dbWorkers), events)
    requires Enabled(Run(NewRuntime(workers, dbWorkers), events), e)
    ensures var s := Run(NewRuntime(workers, dbWorkers), events);
      && (NoneOvertaken(Step(s, e)) <==> Careful(s, e))
      && (Careful(s, e) ==> OneWorkerPerFlow(Step(s, e)))
  {
    var s := Run(NewRuntime(workers, dbWorkers), events);
    StartKeeps(workers, dbWorkers);
    EveryRunKeeps(NewRuntime(workers, dbWorkers), events);
    if Careful(s, e) {
      KeysStep(s, e);
      FlowsStep(s, e);
      InvIsExclusive(Step(s, e));
    } else if e.TakeAllBlocked? {
      var w :| w in s.workers && s.workers[w].Awaiting?;
      TakeAllOvertakes(s, w);
    } else {
      StoppedPoolOvertakes(s, e.d);
    }
  }

  lemma TakeAllOvertakes(s: Runtime, w: Thread)
    requires Inv(s) && w in s.workers && s.workers[w].Awaiting?
    ensures !NoneOvertaken(TookAll(s))
  {
    var r, k := TookAll(s), s.workers[w].key;
    assert k in s.registry && s.keys[k].flow == s.workers[w].flow;
    assert k in r.settling && r.settling[k][0].task == r.workers[w].flow;
    assert !NothingAhead(r, w);
  }

  lemma StoppedPoolOvertakes(s: Runtime, d: Thread)
    requires Inv(s) && CanDbPostStopped(s, d)
    requires !s.workClosed && s.keys[s.dbWorkers[d].key].guard !in s.finished
    ensures !NoneOvertaken(DbPosted(s, d))
  {
    var r, k := DbPosted(s, d), s.dbWorkers[d].key;
    assert OwnerAwaits(s, k);
    var w := s.guards[s.keys[k].guard];
    assert r.work[|s.work|] == WakeUp(r.workers[w].key);
    assert !NothingAhead(r, w);
  }

  // ---------------------------------------------------------------- where a flow is

  ghost predicate QueuedFlow(s: Runtime, m: Flow) {
    exists t :: s.workHead <= t < |s.work| && s.work[t] == RunFlow(m)
  }

  ghost predicate RunBy(s: Runtime, m: Flow, w: Thread) {
    w in s.workers && Busy(s.workers[w]) && s.workers[w].flow == m
  }

  /** Key k holds flow m: in the registry, or with `settle_pending`. */
  ghost predicate HeldUnder(s: Runtime, m: Flow, k: BQ.Key) {
    || (k in s.registry && s.registry[k] == [BQ.Blocked(k, m)])
    || (k in s.settling && s.settling[k] == [BQ.Blocked(k, m)])
  }

  ghost predicate HandedBy(s: Runtime, m: Flow, w: Thread) {
    w in s.workers && s.workers[w].Handing? && |s.workers[w].tasks| == 1 && s.workers[w].tasks[0].task == m
  }

  /** Conservation.  In every careful run, while the work pool is open, a flow that was submitted and has not given its
      slot back is queued, run by a worker, held under a key or in the hands of `on_event`, and no other flow is. */
  lemma EveryFlowIsSomewhere(workers: nat, dbWorkers: nat, events: seq<Event>, m: Flow)
    requires Possible(NewRuntime(workers, dbWorkers), events) && CarefulRun(NewRuntime(workers, dbWorkers), events)
    requires !Run(NewRuntime(workers, dbWorkers), events).workClosed
    ensures var s := Run(NewRuntime(workers, dbWorkers), events);
      m in s.place <==> QueuedFlow(s, m) || (exists w :: RunBy(s, m, w)) || (exists k :: HeldUnder(s, m, k))
                        || (exists w :: HandedBy(s, m, w))
  {
    StartKeeps(workers, dbWorkers);
    EveryRunKeeps(NewRuntime(workers, dbWorkers), events);
    SomewhereOf(Run(NewRuntime(workers, dbWorkers), events), m);
  }

  lemma SomewhereOf(s: Runtime, m: Flow)
    requires Inv(s) && !s.workClosed
    ensures m in s.place <==> QueuedFlow(s, m) || (exists w :: RunBy(s, m, w)) || (exists k :: HeldUnder(s, m, k))
                              || (exists w :: HandedBy(s, m, w))
  {
    if m in s.place {
      match s.place[m]
      case Queued(t) => assert s.work[t] == RunFlow(m);
      case Executing(w) => assert RunBy(s, m, w);
      case Suspended(k) => assert HeldUnder(s, m, k);
      case InHands(w) => assert HandedBy(s, m, w);
      case Dropped =>
    }
  }

  /** At most one queue entry, one worker, one key, one `on_event`; and of two such places at most one is taken - except
      that a worker still in `await_suspend` has already filed its flow, under just that key. */
  ghost predicate NotTwice(s: Runtime, m: Flow) {
    && (forall t, u :: s.workHead <= t < u < |s.work| ==> !(s.work[t] == RunFlow(m) && s.work[u] == RunFlow(m)))
    && (forall v, w :: RunBy(s, m, v) && RunBy(s, m, w) ==> v == w)
    && (forall j, k :: HeldUnder(s, m, j) && HeldUnder(s, m, k) ==> j == k)
    && (forall v, w :: HandedBy(s, m, v) && HandedBy(s, m, w) ==> v == w)
    && (forall w, k :: RunBy(s, m, w) && HeldUnder(s, m, k) ==> s.workers[w].Awaiting? && s.workers[w].key == k)
    && (QueuedFlow(s, m) ==> forall w, k :: !RunBy(s, m, w) && !HeldUnder(s, m, k) && !HandedBy(s, m, w))
    && (forall v :: HandedBy(s, m, v) ==> forall w, k :: !RunBy(s, m, w) && !HeldUnder(s, m, k))
  }

  /** And in every careful run nowhere twice. */
  lemma NoFlowIsTwice(workers: nat, dbWorkers: nat, events: seq<Event>, m: Flow)
    requires Possible(NewRuntime(workers, dbWorkers), events) && CarefulRun(NewRuntime(workers, dbWorkers), events)
    ensures NotTwice(Run(NewRuntime(workers, dbWorkers), events), m)
  {
    StartKeeps(workers, dbWorkers);
    EveryRunKeeps(NewRuntime(workers, dbWorkers), events);
    NoneTwice(Run(NewRuntime(workers, dbWorkers), events), m);
  }

  lemma HeldIsPlaced(s: Runtime, m: Flow, k: BQ.Key)
    requires Inv(s) && HeldUnder(s, m, k)
    ensures m in s.place
    ensures s.place[m] == Suspended(k) || (s.place[m].Executing? && RunBy(s, m, s.place[m].worker)
              && s.workers[s.place[m].worker].Awaiting? && s.workers[s.place[m].worker].key == k)
  {
    if k in s.registry {
      assert BlockedFlowInv(s, k);
    }
  }

  lemma NoneTwice(s: Runtime, m: Flow)
    requires Inv(s)
    ensures NotTwice(s, m)
  {
    forall w | RunBy(s, m, w) ensures m in s.place && s.place[m] == Executing(w) {
    }
    forall w | HandedBy(s, m, w) ensures m in s.place && s.place[m] == InHands(w) {
      assert HandingInv(s, w);
    }
    forall k | HeldUnder(s, m, k)
      ensures m in s.place
      ensures s.place[m] == Suspended(k) || (s.place[m].Executing? && s.place[m].worker in s.workers
                && s.workers[s.place[m].worker].Awaiting? && s.workers[s.place[m].worker].key == k)
    {
      HeldIsPlaced(s, m, k);
    }
  }

  // ---------------------------------------------------------------- wake-ups

  function Entry(s: Runtime, k: BQ.Key): seq<BQ.Blocked<Flow>> {
    BQ.Filed(s.registry, k)
  }

  /** No missed entry.  In every run, shutdown included, a worker that runs `on_event(key)` does so after the query of
      the key was answered, or given up for want of a connection, and finds exactly the flow that was suspended under
      the key, unless `take_all` has already taken it. */
  lemma WakeUpFindsItsTask(workers: nat, dbWorkers: nat, events: seq<Event>, w: Thread)
    requires Possible(NewRuntime(workers, dbWorkers), events)
    requires var s := Run(NewRuntime(workers, dbWorkers), events); w in s.workers && s.workers[w].OnEvent?
    ensures var s := Run(NewRuntime(workers, dbWorkers), events); var k := s.workers[w].key;
      k in s.keys && if k in s.settled then Entry(s, k) == [] else Entry(s, k) == [BQ.Blocked(k, s.keys[k].flow)]
    ensures var t := NewRuntime(workers, dbWorkers); var k := Run(t, events).workers[w].key;
      CS.WasAnswered(t, events, k) || CS.WasGivenUp(t, events, k)
  {
    StartKeeps(workers, dbWorkers);
    EveryRunKeepsKeys(NewRuntime(workers, dbWorkers), events);
    CS.WokenAfterTheAnswer(workers, dbWorkers, events, Run(NewRuntime(workers, dbWorkers), events).workers[w].key);
  }

  /** In every run the model's own lookups of a key succeed wherever the source has a next step. */
  lemma LookupsNeverBlock(workers: nat, dbWorkers: nat, events: seq<Event>)
    requires Possible(NewRuntime(workers, dbWorkers), events)
    ensures var s := Run(NewRuntime(workers, dbWorkers), events);
      && (s.workHead < |s.work| && s.work[s.workHead].WakeUp? ==> s.work[s.workHead].key in s.keys)
      && (s.dbHead < |s.db| ==> s.db[s.dbHead] in s.keys)
      && (forall w :: w in s.workers && (s.workers[w].Awaiting? || s.workers[w].OnEvent?) ==>
            s.workers[w].key in s.keys)
      && (forall d :: d in s.dbWorkers && Serving(s.dbWorkers[d]) ==> s.dbWorkers[d].key in s.keys)
  {
    StartKeeps(workers, dbWorkers);
    EveryRunKeepsKeys(NewRuntime(workers, dbWorkers), events);
  }

  /** Key k was filed, and has been handed out. */
  predicate HandedOut(s: Runtime, k: BQ.Key) {
    k in s.keys && k !in s.registry && k !in s.settling
  }

  lemma HandedOutStays(s: Runtime, e: Event, k: BQ.Key)
    requires Enabled(s, e) && HandedOut(s, k)
    ensures HandedOut(Step(s, e), k)
  {
    if e.Suspend? || e.TakeBlocked? {
      HandedOutAtRegistry(s, e, k);
    } else if e.SubmitQuery? {
      HandedOutAtSubmit(s, e.w, k);
    } else if e.PopTask? {
      HandedOutAtPop(s, e.w, k);
    } else if e.DbPop? || e.DbPost? || e.DbPostStopped? || e.PostSettled? || e.TakeAllBlocked? {
      HandedOutAtDb(s, e, k);
    } else {
      HandedOutElsewhere(s, e, k);
    }
  }

  lemma HandedOutAtRegistry(s: Runtime, e: Event, k: BQ.Key)
    requires Enabled(s, e) && HandedOut(s, k) && (e.Suspend? || e.TakeBlocked?)
    ensures HandedOut(Step(s, e), k)
  {
  }

  lemma HandedOutAtSubmit(s: Runtime, w: Thread, k: BQ.Key)
    requires CanSubmitQuery(s, w) && HandedOut(s, k)
    ensures HandedOut(DidSubmitQuery(s, w), k)
  {
  }

  lemma HandedOutAtPop(s: Runtime, w: Thread, k: BQ.Key)
    requires CanPop(s, w) && HandedOut(s, k)
    ensures HandedOut(Popped(s, w), k)
  {
  }

  lemma HandedOutAtDb(s: Runtime, e: Event, k: BQ.Key)
    requires Enabled(s, e) && HandedOut(s, k)
    requires e.DbPop? || e.DbPost? || e.DbPostStopped? || e.PostSettled? || e.TakeAllBlocked?
    ensures HandedOut(Step(s, e), k)
  {
  }

  lemma HandedOutElsewhere(s: Runtime, e: Event, k: BQ.Key)
    requires Enabled(s, e) && HandedOut(s, k) && !e.Suspend? && !e.SubmitQuery? && !e.TakeBlocked? && !e.PopTask?
    requires !e.DbPop? && !e.DbPost? && !e.DbPostStopped? && !e.PostSettled? && !e.TakeAllBlocked?
    ensures HandedOut(Step(s, e), k)
  {
  }

  /** At most once.  A key whose flow was handed out, by `on_event` or by `settle_pending`, is never filed again, over
      any run. */
  lemma {:induction false} NeverFiledAgain(s: Runtime, events: seq<Event>, k: BQ.Key)
    requires Possible(s, events) && HandedOut(s, k)
    ensures HandedOut(Run(s, events), k)
    decreases |events|
  {
    if events != [] {
      HandedOutStays(s, events[0], k);
      NeverFiledAgain(Step(s, events[0]), events[1..], k);
    }
  }

  // ---------------------------------------------------------------- idle means idle

  /** In every run both counters are what is being added, queued and worked on, so the test that keeps them from going
      below zero never fails for a task that ends. */
  lemma CountsAreExact(workers: nat, dbWorkers: nat, events: seq<Event>)
    requires Possible(NewRuntime(workers, dbWorkers), events)
    ensures var s := Run(NewRuntime(workers, dbWorkers), events);
      && s.workTally.count == s.workTally.adding + (|s.work| - s.workHead) + |AtWork(s.workers)|
      && s.dbTally.count == s.dbTally.adding + (|s.db| - s.dbHead) + |AtQueries(s.dbWorkers)|
      && (forall w :: w in s.workers && !s.workers[w].Idle? ==> s.workTally.count > 0)
      && (forall d :: d in s.dbWorkers && !s.dbWorkers[d].DbIdle? ==> s.dbTally.count > 0)
  {
    StartKeeps(workers, dbWorkers);
    EveryRunKeepsKeys(NewRuntime(workers, dbWorkers), events);
    var s := Run(NewRuntime(workers, dbWorkers), events);
    forall w | w in s.workers && !s.workers[w].Idle? ensures s.workTally.count > 0 {
      assert w in AtWork(s.workers);
    }
    forall d | d in s.dbWorkers && !s.dbWorkers[d].DbIdle? ensures s.dbTally.count > 0 {
      assert d in AtQueries(s.dbWorkers);
    }
  }

  predicate WorkIsOver(s: Runtime) {
    s.workClosed && s.workHead == |s.work| && forall w :: w in s.workers ==> s.workers[w].Idle?
  }

  predicate DbIsOver(s: Runtime) {
    s.dbClosed && s.dbHead == |s.db| && forall d :: d in s.dbWorkers ==> s.dbWorkers[d].DbIdle?
  }

  lemma ZeroIsOver(s: Runtime)
    requires KeysInv(s)
    ensures s.workClosed && s.workTally.count == 0 ==> WorkIsOver(s)
    ensures s.dbClosed && s.dbTally.count == 0 ==> DbIsOver(s)
  {
    forall w | s.workTally.count == 0 && w in s.workers ensures s.workers[w].Idle? {
      assert s.workers[w].Idle? || w in AtWork(s.workers);
    }
    forall d | s.dbTally.count == 0 && d in s.dbWorkers ensures s.dbWorkers[d].DbIdle? {
      assert s.dbWorkers[d].DbIdle? || d in AtQueries(s.dbWorkers);
    }
  }

  /** The steps of other threads that hand tasks to the work pool. */
  predicate OfPoster(e: Event) {
    e.Submit? || e.DbPost? || e.DbPostStopped? || e.PostSettled?
  }

  predicate OfDbWorker(e: Event) {
    e.DbPop? || e.DbAnswer? || e.DbPost? || e.DbPostStopped? || e.DbFinish?
  }

  lemma IdleWorkersRest(s: Runtime, e: Event)
    requires Enabled(s, e) && WorkIsOver(s)
    ensures !CS.OfWorker(e)
  {
  }

  lemma ClosedPoolTakesNothing(s: Runtime, e: Event)
    requires Enabled(s, e) && WorkIsOver(s) && OfPoster(e)
    ensures WorkIsOver(Step(s, e))
  {
  }

  lemma OverStays(s: Runtime, e: Event)
    requires Enabled(s, e) && WorkIsOver(s)
    ensures WorkIsOver(Step(s, e))
  {
    IdleWorkersRest(s, e);
    if OfPoster(e) {
      ClosedPoolTakesNothing(s, e);
    } else {
      OverElsewhere(s, e);
    }
  }

  lemma OverElsewhere(s: Runtime, e: Event)
    requires Enabled(s, e) && WorkIsOver(s) && !CS.OfWorker(e) && !OfPoster(e)
    ensures WorkIsOver(Step(s, e))
  {
  }

  lemma IdleDbWorkersRest(s: Runtime, e: Event)
    requires Enabled(s, e) && DbIsOver(s)
    ensures !OfDbWorker(e)
  {
  }

  lemma DbOverStays(s: Runtime, e: Event)
    requires Enabled(s, e) && DbIsOver(s)
    ensures DbIsOver(Step(s, e))
  {
    IdleDbWorkersRest(s, e);
    if CS.OfWorker(e) {
      DbOverAtWork(s, e);
    } else {
      DbOverElsewhere(s, e);
    }
  }

  lemma DbOverAtWork(s: Runtime, e: Event)
    requires Enabled(s, e) && DbIsOver(s) && CS.OfWorker(e)
    ensures DbIsOver(Step(s, e))
  {
    if e.PopTask? || e.PostResume? || e.TakeBlocked? {
      DbOverAtTasks(s, e);
    } else if e.Suspend? || e.SubmitQuery? || e.FnSuspended? {
      DbOverAtAwait(s, e);
    } else {
      DbOverAtEnd(s, e);
    }
  }

  lemma DbOverAtTasks(s: Runtime, e: Event)
    requires Enabled(s, e) && DbIsOver(s) && (e.PopTask? || e.PostResume? || e.TakeBlocked?)
    ensures DbIsOver(Step(s, e))
  {
  }

  lemma DbOverAtAwait(s: Runtime, e: Event)
    requires Enabled(s, e) && DbIsOver(s) && (e.Suspend? || e.SubmitQuery? || e.FnSuspended?)
    ensures DbIsOver(Step(s, e))
  {
  }

  lemma DbOverAtEnd(s: Runtime, e: Event)
    requires Enabled(s, e) && DbIsOver(s)
    requires e.FnEnds? || e.SettleCredit? || e.GiveSlot? || e.Check? || e.EventEnds? || e.FinishTask?
    ensures DbIsOver(Step(s, e))
  {
  }

  lemma DbOverElsewhere(s: Runtime, e: Event)
    requires Enabled(s, e) && DbIsOver(s) && !CS.OfWorker(e) && !OfDbWorker(e)
    ensures DbIsOver(Step(s, e))
  {
  }

  lemma {:induction false} OverForGood(s: Runtime, events: seq<Event>)
    requires Possible(s, events)
    ensures WorkIsOver(s) ==> WorkIsOver(Run(s, events))
    ensures DbIsOver(s) ==> DbIsOver(Run(s, events))
    decreases |events|
  {
    if events != [] {
      if WorkIsOver(s) {
        OverStays(s, events[0]);
      }
      if DbIsOver(s) {
        DbOverStays(s, events[0]);
      }
      OverForGood(Step(s, events[0]), events[1..]);
    }
  }

  /** Idle means idle, for the work pool: once it is closed and its count has been seen as zero, in every later state
      nothing is queued in it and no worker does anything. */
  lemma WorkIdleIsForever(workers: nat, dbWorkers: nat, before: seq<Event>, after: seq<Event>)
    requires Possible(NewRuntime(workers, dbWorkers), before)
    requires var s := Run(NewRuntime(workers, dbWorkers), before);
      s.workClosed && s.workTally.count == 0 && Possible(s, after)
    ensures WorkIsOver(Run(Run(NewRuntime(workers, dbWorkers), before), after))
  {
    StartKeeps(workers, dbWorkers);
    EveryRunKeepsKeys(NewRuntime(workers, dbWorkers), before);
    ZeroIsOver(Run(NewRuntime(workers, dbWorkers), before));
    OverForGood(Run(NewRuntime(workers, dbWorkers), before), after);
  }

  /** And for the DB pool, where idle means more: in every later state no query is queued or at a worker, and every
      query the pool ever accepted has had its wake-up posted, or refused by a closed work pool. */
  lemma DbIdleIsForever(workers: nat, dbWorkers: nat, before: seq<Event>, after: seq<Event>)
    requires Possible(NewRuntime(workers, dbWorkers), before)
    requires var s := Run(NewRuntime(workers, dbWorkers), before);
      s.dbClosed && s.dbTally.count == 0 && Possible(s, after)
    ensures var r := Run(Run(NewRuntime(workers, dbWorkers), before), after);
      && DbIsOver(r)
      && (forall k :: k in r.keys ==> !r.keys[k].phase.DbQueued? && !r.keys[k].phase.AtDb?)
      && (forall t :: 0 <= t < |r.db| ==> r.db[t] in r.keys && PastDb(r.keys[r.db[t]].phase))
  {
    StartKeeps(workers, dbWorkers);
    var s := Run(NewRuntime(workers, dbWorkers), before);
    EveryRunKeepsKeys(NewRuntime(workers, dbWorkers), before);
    ZeroIsOver(s);
    OverForGood(s, after);
    EveryRunKeepsKeys(s, after);
    OverIsPast(Run(s, after));
  }

  lemma OverIsPast(s: Runtime)
    requires KeysInv(s) && DbIsOver(s)
    ensures forall k :: k in s.keys ==> !s.keys[k].phase.DbQueued? && !s.keys[k].phase.AtDb?
    ensures forall t :: 0 <= t < |s.db| ==> s.db[t] in s.keys && PastDb(s.keys[s.db[t]].phase)
  {
  }
}
