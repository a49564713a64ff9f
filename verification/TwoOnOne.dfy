/** Two workers on one coroutine: what the two steps of a shutdown that do not wait for a suspend guard can lead to,
    from any state that other steps reach, and from the start. */
module TwoOnOne {
  import BQ = BlockingQueue
  import opened IdleCount
  import opened CoroutineRuntime
  import opened CoroutineProofs
  import opened CoroutineTheorems

  lemma Prepend(s: Runtime, e: Event, rest: seq<Event>)
    requires Enabled(s, e) && Possible(Step(s, e), rest)
    ensures Possible(s, [e] + rest) && Run(s, [e] + rest) == Run(Step(s, e), rest)
  {
    assert ([e] + rest)[1..] == rest;
  }

  lemma OneStep(s: Runtime, e: Event)
    requires Enabled(s, e)
    ensures Possible(s, [e]) && Run(s, [e]) == Step(s, e)
  {
    assert [e][1..] == [];
  }

  /** Worker v now runs flow m; the other workers are where they were. */
  ghost predicate JoinedOn(s: Runtime, r: Runtime, m: Flow, v: Thread) {
    && v in s.workers && r.workers.Keys == s.workers.Keys
    && r.workers[v].InFn? && r.workers[v].flow == m
    && forall w :: w in s.workers && w != v ==> r.workers[w] == s.workers[w]
  }

  lemma HeadFlowRuns(s: Runtime, m: Flow, v: Thread)
    requires v in s.workers && s.workers[v].Idle? && s.workHead < |s.work| && s.work[s.workHead] == RunFlow(m)
    ensures Possible(s, [PopTask(v)]) && JoinedOn(s, Run(s, [PopTask(v)]), m, v)
  {
    OneStep(s, PopTask(v));
  }

  lemma SettlingOnIdlePool(s: Runtime, w: Thread, v: Thread) returns (events: seq<Event>)
    requires Inv(s) && w in s.workers && s.workers[w].Awaiting?
    requires v in s.workers && s.workers[v].Idle? && s.workHead == |s.work| && !s.workClosed
    ensures Possible(s, events) && JoinedOn(s, Run(s, events), s.workers[w].flow, v)
  {
    var k, m := s.workers[w].key, s.workers[w].flow;
    assert k in s.registry && s.registry[k] == [BQ.Blocked(k, m)];
    var s1 := TookAll(s);
    var rest := SettledFlowRuns(s1, k, m, v);
    Prepend(s, TakeAllBlocked, rest);
    events := [TakeAllBlocked] + rest;
  }

  lemma SettledFlowRuns(s: Runtime, k: BQ.Key, m: Flow, v: Thread) returns (events: seq<Event>)
    requires k in s.settling && s.settling[k] == [BQ.Blocked(k, m)]
    requires v in s.workers && s.workers[v].Idle? && s.workHead == |s.work| && !s.workClosed
    ensures Possible(s, events) && JoinedOn(s, Run(s, events), m, v)
  {
    var s1 := Step(s, CountWork);
    var s2 := PostedSettled(s1, k);
    HeadFlowRuns(s2, m, v);
    Prepend(s1, PostSettled(k), [PopTask(v)]);
    Prepend(s, CountWork, [PostSettled(k)] + [PopTask(v)]);
    events := [CountWork] + ([PostSettled(k)] + [PopTask(v)]);
  }

  lemma StoppedOnIdlePool(s: Runtime, d: Thread, v: Thread) returns (w: Thread, events: seq<Event>)
    requires Inv(s) && d in s.dbWorkers && s.dbWorkers[d].Querying?
    requires s.dbWorkers[d].key in s.keys && s.keys[s.dbWorkers[d].key].guard !in s.finished
    requires v in s.workers && s.workers[v].Idle? && s.workHead == |s.work| && !s.workClosed
    ensures s.keys[s.dbWorkers[d].key].guard < |s.guards| && w == s.guards[s.keys[s.dbWorkers[d].key].guard]
    ensures w in s.workers && s.workers[w].Awaiting?
    ensures Possible(s, events) && JoinedOn(s, Run(s, events), s.workers[w].flow, v)
  {
    var k := s.dbWorkers[d].key;
    assert OwnerAwaits(s, k);
    w := s.guards[s.keys[k].guard];
    var m := s.workers[w].flow;
    var s1 := Step(s, CountWork);
    var s2 := DbPosted(s1, d);
    assert s2.work[s2.workHead] == WakeUp(k);
    assert Entry(s2, k) == [BQ.Blocked(k, m)];
    var rest := WakeRunsFlow(s2, k, m, v);
    Prepend(s1, DbPostStopped(d), rest);
    Prepend(s, CountWork, [DbPostStopped(d)] + rest);
    events := [CountWork] + ([DbPostStopped(d)] + rest);
  }

  // The work queue may be as long as it likes: the idle worker first runs it dry.

  /** Worker v has dealt with queued tasks, and everybody else is where they were. */
  ghost predicate OthersStay(s: Runtime, r: Runtime) {
    r.workers == s.workers && r.dbWorkers == s.dbWorkers && !r.workClosed
  }

  ghost predicate InService(events: seq<Event>) {
    forall e :: e in events ==> BeforeShutdown(e)
  }

  /** A wake-up makes room for the flow that it resumes. */
  function Load(tasks: seq<Task>): nat {
    if tasks == [] then 0 else (if tasks[0].WakeUp? then 2 else 1) + Load(tasks[1..])
  }

  lemma {:induction false} LoadOfOneMore(tasks: seq<Task>, task: Task)
    ensures Load(tasks + [task]) == Load(tasks) + if task.WakeUp? then 2 else 1
  {
    if tasks == [] {
      assert tasks + [task] == [task];
    } else {
      LoadOfOneMore(tasks[1..], task);
      assert (tasks + [task])[1..] == tasks[1..] + [task];
    }
  }

  lemma SoundInService(s: Runtime, events: seq<Event>)
    requires Inv(s) && Possible(s, events) && InService(events)
    ensures Inv(Run(s, events))
  {
    forall i | 0 <= i < |events| ensures BeforeShutdown(events[i]) {
      assert events[i] in events;
    }
    ShutdownNotReached(s, events);
    EveryRunKeeps(s, events);
  }

  lemma {:induction false} RunsOn(s: Runtime, xs: seq<Event>, ys: seq<Event>)
    requires Possible(s, xs) && Possible(Run(s, xs), ys)
    ensures Possible(s, xs + ys) && Run(s, xs + ys) == Run(Run(s, xs), ys)
    decreases |xs|
  {
    if xs == [] {
      assert xs + ys == ys;
    } else {
      RunsOn(Step(s, xs[0]), xs[1..], ys);
      Prepend(s, xs[0], xs[1..] + ys);
      assert xs + ys == [xs[0]] + (xs[1..] + ys);
    }
  }

  /** Worker v is done with its task, and the queue's head has not moved. */
  ghost predicate TaskIsOver(s: Runtime, r: Runtime, v: Thread) {
    && r.workers == s.workers[v := Idle] && r.dbWorkers == s.dbWorkers && r.workClosed == s.workClosed
    && r.workHead == s.workHead
  }

  /** What is left of a task once `fn` has returned and the flow is over. */
  lemma EndOfFlow(s: Runtime, v: Thread) returns (events: seq<Event>)
    requires v in s.workers && s.workers[v].Ending?
    ensures Possible(s, events) && InService(events)
    ensures TaskIsOver(s, Run(s, events), v) && Run(s, events).work == s.work
  {
    var s1 := CreditSettled(s, v);
    var rest := EndOfSlot(s1, v);
    Prepend(s, SettleCredit(v), rest);
    events := [SettleCredit(v)] + rest;
    assert s1.workers[v := Idle] == s.workers[v := Idle];
  }

  lemma EndOfSlot(s: Runtime, v: Thread) returns (events: seq<Event>)
    requires v in s.workers && s.workers[v].GivingSlot?
    ensures Possible(s, events) && InService(events)
    ensures TaskIsOver(s, Run(s, events), v) && Run(s, events).work == s.work
  {
    var s1 := SlotGiven(s, v, false);
    var s2 := Become(s1, v, Done);
    OneStep(s2, FinishTask(v));
    Prepend(s1, Check(v), [FinishTask(v)]);
    Prepend(s, GiveSlot(v, false), [Check(v)] + [FinishTask(v)]);
    events := [GiveSlot(v, false)] + ([Check(v)] + [FinishTask(v)]);
    assert DidFinishTask(s2, v).workers == s.workers[v := Idle];
  }

  predicate HasNext(s: Runtime, v: Thread) {
    v in s.workers && s.workers[v].Idle? && s.workHead < |s.work| && !s.workClosed
  }

  /** Worker v runs the flow at the head of the queue to its end. */
  lemma RunsFlow(s: Runtime, v: Thread) returns (events: seq<Event>)
    requires HasNext(s, v) && s.work[s.workHead].RunFlow?
    ensures Possible(s, events) && InService(events) && OthersStay(s, Run(s, events))
    ensures Run(s, events).work == s.work && Run(s, events).workHead == s.workHead + 1
  {
    var s1 := Popped(s, v);
    var s2 := Ended(s1, v);
    var rest := EndOfFlow(s2, v);
    Prepend(s1, FnEnds(v), rest);
    Prepend(s, PopTask(v), [FnEnds(v)] + rest);
    events := [PopTask(v)] + ([FnEnds(v)] + rest);
    assert s2.workers[v := Idle] == s.workers;
  }

  /** Worker v serves the wake-up at the head of the queue, which may push a flow. */
  lemma RunsWakeUp(s: Runtime, v: Thread) returns (events: seq<Event>)
    requires HasNext(s, v) && s.work[s.workHead].WakeUp? && s.work[s.workHead].key in s.keys
    requires |Entry(s, s.work[s.workHead].key)| <= 1
    ensures Possible(s, events) && InService(events) && OthersStay(s, Run(s, events))
    ensures Run(s, events).workHead == s.workHead + 1 && AtMostOneMore(s.work, Run(s, events).work)
  {
    var s1 := Popped(s, v);
    var s2 := TookBlocked(s1, v);
    var rest := HandsOver(s2, v);
    Prepend(s1, TakeBlocked(v), rest);
    Prepend(s, PopTask(v), [TakeBlocked(v)] + rest);
    events := [PopTask(v)] + ([TakeBlocked(v)] + rest);
    assert s2.workers[v := Idle] == s.workers;
  }

  ghost predicate AtMostOneMore(work: seq<Task>, more: seq<Task>) {
    more == work || exists m :: more == work + [RunFlow(m)]
  }

  lemma HandsOver(s: Runtime, v: Thread) returns (events: seq<Event>)
    requires v in s.workers && s.workers[v].Handing? && |s.workers[v].tasks| <= 1 && !s.workClosed
    ensures Possible(s, events) && InService(events) && TaskIsOver(s, Run(s, events), v)
    ensures AtMostOneMore(s.work, Run(s, events).work)
  {
    if s.workers[v].tasks == [] {
      events := NothingInHand(s, v);
    } else {
      var s1 := Step(s, CountWork);
      var s2 := PostedResume(s1, v);
      var rest := NothingInHand(s2, v);
      Prepend(s1, PostResume(v), rest);
      Prepend(s, CountWork, [PostResume(v)] + rest);
      events := [CountWork] + ([PostResume(v)] + rest);
      assert s2.work == s.work + [RunFlow(s.workers[v].tasks[0].task)];
      assert s2.workers[v := Idle] == s.workers[v := Idle];
    }
  }

  lemma NothingInHand(s: Runtime, v: Thread) returns (events: seq<Event>)
    requires v in s.workers && s.workers[v] == Handing([])
    ensures Possible(s, events) && InService(events)
    ensures TaskIsOver(s, Run(s, events), v) && Run(s, events).work == s.work
  {
    var s1 := Become(s, v, Done);
    OneStep(s1, FinishTask(v));
    Prepend(s, EventEnds(v), [FinishTask(v)]);
    events := [EventEnds(v)] + [FinishTask(v)];
    assert DidFinishTask(s1, v).workers == s.workers[v := Idle];
  }

  lemma OneTaskAtMost(s: Runtime)
    requires TracesInv(s) && RegistryInv(s) && s.workHead < |s.work| && s.work[s.workHead].WakeUp?
    ensures s.work[s.workHead].key in s.keys && |Entry(s, s.work[s.workHead].key)| <= 1
  {
  }

  lemma RunsNext(s: Runtime, v: Thread) returns (events: seq<Event>)
    requires Inv(s) && HasNext(s, v)
    ensures Possible(s, events) && InService(events) && OthersStay(s, Run(s, events))
    ensures Run(s, events).workHead == s.workHead + 1
    ensures if s.work[s.workHead].WakeUp? then AtMostOneMore(s.work, Run(s, events).work)
            else Run(s, events).work == s.work
  {
    if s.work[s.workHead].RunFlow? {
      events := RunsFlow(s, v);
    } else {
      OneTaskAtMost(s);
      events := RunsWakeUp(s, v);
    }
  }

  lemma LoadGoesDown(work: seq<Task>, more: seq<Task>, head: nat)
    requires head < |work| && if work[head].WakeUp? then AtMostOneMore(work, more) else more == work
    ensures head < |more| && Load(more[head + 1..]) < Load(work[head..])
  {
    var left := work[head..][1..];
    assert left == work[head + 1..];
    if more != work {
      var m :| more == work + [RunFlow(m)];
      LoadOfOneMore(left, RunFlow(m));
      assert more[head + 1..] == left + [RunFlow(m)];
    }
  }

  lemma {:induction false} RunsDry(s: Runtime, v: Thread) returns (events: seq<Event>)
    requires Inv(s) && v in s.workers && s.workers[v].Idle? && !s.workClosed && s.workHead <= |s.work|
    ensures Possible(s, events) && Inv(Run(s, events)) && OthersStay(s, Run(s, events))
    ensures Run(s, events).workHead == |Run(s, events).work|
    decreases Load(s.work[s.workHead..])
  {
    if s.workHead == |s.work| {
      events := [];
    } else {
      var first := RunsNext(s, v);
      SoundInService(s, first);
      LoadGoesDown(s.work, Run(s, first).work, s.workHead);
      var rest := RunsDry(Run(s, first), v);
      RunsOn(s, first, rest);
      events := first + rest;
    }
  }

  /** And it gets as bad as it can: from any state that careful steps lead to, while the work pool is open, if worker w
      is in `await_suspend`, then `settle_pending` can put an idle worker v on the same coroutine. */
  lemma SettlingPutsTwoOnOne(s: Runtime, w: Thread, v: Thread) returns (events: seq<Event>)
    requires Inv(s) && w in s.workers && s.workers[w].Awaiting?
    requires v in s.workers && s.workers[v].Idle? && !s.workClosed
    ensures Possible(s, events) && JoinedOn(s, Run(s, events), s.workers[w].flow, v)
  {
    var first := RunsDry(s, v);
    var rest := SettlingOnIdlePool(Run(s, first), w, v);
    RunsOn(s, first, rest);
    events := first + rest;
  }

  /** A DB worker whose pool was stopped does the same, through a wake-up. */
  lemma StoppedPoolPutsTwoOnOne(s: Runtime, d: Thread, v: Thread) returns (w: Thread, events: seq<Event>)
    requires Inv(s) && d in s.dbWorkers && s.dbWorkers[d].Querying?
    requires s.dbWorkers[d].key in s.keys && s.keys[s.dbWorkers[d].key].guard !in s.finished
    requires v in s.workers && s.workers[v].Idle? && !s.workClosed
    ensures s.keys[s.dbWorkers[d].key].guard < |s.guards| && w == s.guards[s.keys[s.dbWorkers[d].key].guard]
    ensures w in s.workers && s.workers[w].Awaiting?
    ensures Possible(s, events) && JoinedOn(s, Run(s, events), s.workers[w].flow, v)
  {
    var k := s.dbWorkers[d].key;
    assert OwnerAwaits(s, k);
    w := s.guards[s.keys[k].guard];
    var first := RunsDry(s, v);
    var r := Run(s, first);
    StillSuspending(r, w);
    var u, rest := StoppedOnIdlePool(r, d, v);
    assert u == w;
    RunsOn(s, first, rest);
    events := first + rest;
  }

  lemma StillSuspending(s: Runtime, w: Thread)
    requires Inv(s) && w in s.workers && s.workers[w].Awaiting?
    ensures var k := s.workers[w].key;
      && k in s.keys && s.keys[k].guard !in s.finished
      && s.keys[k].guard < |s.guards| && s.guards[s.keys[k].guard] == w
  {
  }

  /** A wake-up at the head of the queue, taken by worker v, puts v on the flow. */
  lemma WakeRunsFlow(s: Runtime, k: BQ.Key, m: Flow, v: Thread) returns (events: seq<Event>)
    requires v in s.workers && s.workers[v].Idle? && !s.workClosed && k in s.keys
    requires s.workHead + 1 == |s.work| && s.work[s.workHead] == WakeUp(k) && Entry(s, k) == [BQ.Blocked(k, m)]
    ensures Possible(s, events) && JoinedOn(s, Run(s, events), m, v)
  {
    var s1 := Popped(s, v);
    var s2 := TookBlocked(s1, v);
    assert s2.workers[v] == Handing([BQ.Blocked(k, m)]);
    var rest := HandedFlowRuns(s2, k, m, v);
    Prepend(s1, TakeBlocked(v), rest);
    Prepend(s, PopTask(v), [TakeBlocked(v)] + rest);
    events := [PopTask(v)] + ([TakeBlocked(v)] + rest);
  }

  lemma HandedFlowRuns(s: Runtime, k: BQ.Key, m: Flow, v: Thread) returns (events: seq<Event>)
    requires v in s.workers && s.workers[v] == Handing([BQ.Blocked(k, m)]) && !s.workClosed && s.workHead == |s.work|
    ensures Possible(s, events) && JoinedOn(s, Run(s, events), m, v)
  {
    var s1 := Step(s, CountWork);
    var s2 := PostedResume(s1, v);
    assert s1.workers[v].tasks[1..] == [];
    assert s2.workers == s.workers[v := Handing([])];
    var rest := EventEndsAndFlowRuns(s2, m, v);
    Prepend(s1, PostResume(v), rest);
    Prepend(s, CountWork, [PostResume(v)] + rest);
    events := [CountWork] + ([PostResume(v)] + rest);
  }

  lemma EventEndsAndFlowRuns(s: Runtime, m: Flow, v: Thread) returns (events: seq<Event>)
    requires v in s.workers && s.workers[v] == Handing([])
    requires s.workHead < |s.work| && s.work[s.workHead] == RunFlow(m)
    ensures Possible(s, events) && JoinedOn(s, Run(s, events), m, v)
  {
    var s1 := Become(s, v, Done);
    var s2 := DidFinishTask(s1, v);
    HeadFlowRuns(s2, m, v);
    Prepend(s1, FinishTask(v), [PopTask(v)]);
    Prepend(s, EventEnds(v), [FinishTask(v)] + [PopTask(v)]);
    events := [EventEnds(v)] + ([FinishTask(v)] + [PopTask(v)]);
  }

  predicate BeforeShutdown(e: Event) {
    !e.TakeAllBlocked? && !e.DbPostStopped?
  }

  /** Runs without the two shutdown steps are careful. */
  lemma {:induction false} ShutdownNotReached(s: Runtime, events: seq<Event>)
    requires Possible(s, events)
    requires forall i :: 0 <= i < |events| ==> BeforeShutdown(events[i])
    ensures CarefulRun(s, events)
    decreases |events|
  {
    if events != [] {
      ShutdownNotReached(Step(s, events[0]), events[1..]);
    }
  }

  /** Worker 0 has filed flow 7 under key 5 and submitted the query, and is still inside `await_suspend`. */
  function ToAwait(): seq<Event> {
    [CountWork] + ([Submit(7)] + ([PopTask(0)] + ([Suspend(0, 5)] + ([CountDb] + [SubmitQuery(0)]))))
  }

  lemma ReachAwait(dbWorkers: nat)
    ensures Possible(NewRuntime(2, dbWorkers), ToAwait())
    ensures var s := Run(NewRuntime(2, dbWorkers), ToAwait());
      && s.workers == map[0 := Awaiting(7, 5, 0, true), 1 := Idle] && s.workHead == |s.work| && !s.workClosed
      && s.db == [5] && s.dbHead == 0 && s.dbWorkers == IdleDbWorkers(dbWorkers)
  {
    var s0 := NewRuntime(2, dbWorkers);
    assert s0.workers == map[0 := Idle, 1 := Idle];
    var s1 := Step(s0, CountWork);
    var s2 := Step(s1, Submit(7));
    AwaitFromQueued(s2);
    var rest := [PopTask(0)] + ([Suspend(0, 5)] + ([CountDb] + [SubmitQuery(0)]));
    Prepend(s1, Submit(7), rest);
    Prepend(s0, CountWork, [Submit(7)] + rest);
  }

  lemma AwaitFromQueued(s: Runtime)
    requires s.workers == map[0 := Idle, 1 := Idle] && s.work == [RunFlow(7)] && s.workHead == 0 && !s.workClosed
    requires s.keys == map[] && s.guards == [] && s.db == [] && !s.dbClosed
    ensures var rest := [PopTask(0)] + ([Suspend(0, 5)] + ([CountDb] + [SubmitQuery(0)]));
      && Possible(s, rest)
      && var r := Run(s, rest);
         && r.workers == map[0 := Awaiting(7, 5, 0, true), 1 := Idle] && r.workHead == 1 && r.work == s.work
         && !r.workClosed && r.db == [5] && r.dbHead == s.dbHead && r.dbWorkers == s.dbWorkers
  {
    var s3 := Popped(s, 0);
    var s4 := DidSuspend(s3, 0, 5);
    AwaitFromSuspended(s4);
    assert s4.workers == map[0 := Awaiting(7, 5, 0, false), 1 := Idle];
    var rest := [CountDb] + [SubmitQuery(0)];
    Prepend(s3, Suspend(0, 5), rest);
    Prepend(s, PopTask(0), [Suspend(0, 5)] + rest);
  }

  lemma AwaitFromSuspended(s: Runtime)
    requires 0 in s.workers && s.workers[0] == Awaiting(7, 5, 0, false) && 5 in s.keys && s.db == [] && !s.dbClosed
    ensures var rest := [CountDb] + [SubmitQuery(0)];
      && Possible(s, rest)
      && var r := Run(s, rest);
         && r.workers == s.workers[0 := Awaiting(7, 5, 0, true)] && r.workHead == s.workHead && r.work == s.work
         && r.workClosed == s.workClosed && r.db == [5] && r.dbHead == s.dbHead && r.dbWorkers == s.dbWorkers
  {
    var s1 := Step(s, CountDb);
    OneStep(s1, SubmitQuery(0));
    Prepend(s, CountDb, [SubmitQuery(0)]);
  }

  lemma SoundBeforeShutdown(dbWorkers: nat, events: seq<Event>)
    requires Possible(NewRuntime(2, dbWorkers), events)
    requires forall i :: 0 <= i < |events| ==> BeforeShutdown(events[i])
    ensures Inv(Run(NewRuntime(2, dbWorkers), events))
  {
    StartKeeps(2, dbWorkers);
    ShutdownNotReached(NewRuntime(2, dbWorkers), events);
    EveryRunKeeps(NewRuntime(2, dbWorkers), events);
  }

  lemma AwaitIsBeforeShutdown()
    ensures forall i :: 0 <= i < |ToAwait()| ==> BeforeShutdown(ToAwait()[i])
  {
  }

  lemma AwaitIsSound(dbWorkers: nat)
    ensures Possible(NewRuntime(2, dbWorkers), ToAwait()) && Inv(Run(NewRuntime(2, dbWorkers), ToAwait()))
  {
    ReachAwait(dbWorkers);
    AwaitIsBeforeShutdown();
    SoundBeforeShutdown(dbWorkers, ToAwait());
  }

  /** Shutdown is where exclusivity ends: `settle_pending` hands out a flow whose worker is still inside
      `await_suspend`, and a second worker runs it at the same time. */
  lemma SettlingBreaksExclusivity() returns (after: seq<Event>)
    ensures Possible(NewRuntime(2, 0), ToAwait()) && Possible(Run(NewRuntime(2, 0), ToAwait()), after)
    ensures !OneWorkerPerFlow(Run(Run(NewRuntime(2, 0), ToAwait()), after))
  {
    ReachAwait(0);
    AwaitIsSound(0);
    var s := Run(NewRuntime(2, 0), ToAwait());
    after := SettlingPutsTwoOnOne(s, 0, 1);
    var r := Run(s, after);
    assert r.workers[0].flow == r.workers[1].flow;
  }

  /** DB worker 0 takes up the query of a suspension in progress. */
  lemma QueryIsTakenUp(s: Runtime)
    requires Inv(s) && 0 in s.workers && s.workers[0].Awaiting? && s.workers[0].key == 5
    requires s.db == [5] && s.dbHead == 0 && 0 in s.dbWorkers && s.dbWorkers[0].DbIdle?
    ensures CanDbPop(s, 0)
    ensures var r := DbPopped(s, 0);
      && Inv(r) && r.dbWorkers[0] == Querying(5) && 5 in r.keys && r.keys[5].guard !in r.finished
      && r.workers == s.workers && r.work == s.work && r.workHead == s.workHead && r.workClosed == s.workClosed
      && r.guards == s.guards && r.keys[5].guard < |r.guards| && r.guards[r.keys[5].guard] == 0
  {
    KeysStep(s, DbPop(0));
    FlowsStep(s, DbPop(0));
  }

  /** And so does a DB worker that finds its pool stopped. */
  lemma StoppedPoolBreaksExclusivity() returns (after: seq<Event>)
    ensures Possible(NewRuntime(2, 1), ToAwait()) && Possible(Run(NewRuntime(2, 1), ToAwait()), after)
    ensures !OneWorkerPerFlow(Run(Run(NewRuntime(2, 1), ToAwait()), after))
  {
    ReachAwait(1);
    AwaitIsSound(1);
    var s := Run(NewRuntime(2, 1), ToAwait());
    assert 0 in IdleDbWorkers(1);
    after := StoppedFromAwait(s);
    var r := Run(s, after);
    assert r.workers[0].flow == r.workers[1].flow;
  }

  lemma StoppedFromAwait(s: Runtime) returns (after: seq<Event>)
    requires Inv(s) && s.workers == map[0 := Awaiting(7, 5, 0, true), 1 := Idle] && s.workHead == |s.work|
             && !s.workClosed
    requires s.db == [5] && s.dbHead == 0 && 0 in s.dbWorkers && s.dbWorkers[0].DbIdle?
    ensures Possible(s, after) && JoinedOn(s, Run(s, after), 7, 1)
  {
    QueryIsTakenUp(s);
    var r := DbPopped(s, 0);
    var rest := StoppedQuery(r);
    Prepend(s, DbPop(0), rest);
    after := [DbPop(0)] + rest;
  }

  lemma StoppedQuery(s: Runtime) returns (after: seq<Event>)
    requires Inv(s) && 0 in s.dbWorkers && s.dbWorkers[0] == Querying(5) && 5 in s.keys
             && s.keys[5].guard !in s.finished
    requires s.workers == map[0 := Awaiting(7, 5, 0, true), 1 := Idle] && s.workHead == |s.work| && !s.workClosed
    ensures Possible(s, after) && JoinedOn(s, Run(s, after), 7, 1)
  {
    var w;
    w, after := StoppedPoolPutsTwoOnOne(s, 0, 1);
    assert w == 0;
  }
}
