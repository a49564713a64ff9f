/** Building blocks for concrete runs of the pipeline, for servers of any size: stretches of one reactor or of the
    runtime, and what a message goes through until its flow is suspended, over, or lost in a failed parse. */
module Scenario {
  import opened Framing
  import opened FlowWindow
  import opened CreditGate
  import opened RouteClassifier
  import opened IdleCount
  import opened Wrappers
  import opened ReaderControl
  import opened Pipeline
  import opened PipelineTheorems
  import RT = CoroutineRuntime

  /** One more step from a reachable state. */
  lemma Next(cfg: Config, s: State, e: Event)
    requires Reachable(cfg, s) && Enabled(s, e)
    ensures Reachable(cfg, Step(s, e))
  {
  }

  lemma StartIsReachable(cfg: Config)
    ensures Reachable(cfg, NewState(cfg))
  {
  }

  // ---------------------------------------------------------------- stretches

  predicate CanAll(x: Conn, steps: seq<ReactorStep>)
    decreases |steps|
  {
    steps == [] || (Can(x, steps[0]) && CanAll(Do(x, steps[0]), steps[1..]))
  }

  function DoAll(x: Conn, steps: seq<ReactorStep>): Conn
    requires CanAll(x, steps)
    decreases |steps|
  {
    if steps == [] then x else DoAll(Do(x, steps[0]), steps[1..])
  }

  /** Steps that only concern the reactor of c. */
  lemma {:induction false} ReactorStretch(cfg: Config, s: State, c: ConnId, steps: seq<ReactorStep>)
    requires Reachable(cfg, s) && c in s.conns && CanAll(s.conns[c], steps)
    ensures Reachable(cfg, SetConn(s, c, DoAll(s.conns[c], steps)))
    decreases |steps|
  {
    if steps == [] {
      assert s.conns == s.conns[c := s.conns[c]];
    } else {
      Next(cfg, s, Reactor(c, steps[0]));
      var t := SetConn(s, c, Do(s.conns[c], steps[0]));
      ReactorStretch(cfg, t, c, steps[1..]);
      var end := DoAll(t.conns[c], steps[1..]);
      assert s.conns[c := t.conns[c]][c := end] == s.conns[c := end];
    }
  }

  /** Steps of the runtime that concern it alone. */
  lemma {:induction false} RuntimeStretch(cfg: Config, s: State, events: seq<RT.Event>)
    requires Reachable(cfg, s) && RT.Possible(s.rt, events)
    requires forall i :: 0 <= i < |events| ==> Plain(events[i])
    ensures Reachable(cfg, s.(rt := RT.Run(s.rt, events)))
    decreases |events|
  {
    if events != [] {
      var e := events[0];
      assert Plain(e);
      Next(cfg, s, Work(e));
      RuntimeStretch(cfg, s.(rt := RT.Step(s.rt, e)), events[1..]);
    }
  }

  predicate Plain(x: RT.Event) {
    Internal(x) && !x.TakeAllBlocked? && !x.DbPostStopped?
  }

  // ---------------------------------------------------------------- the servers of the runs

  /** The messages: one with the DB prefix, one without. */
  const DB_TEXT := "q"
  const FAST_TEXT := "f"

  predicate IsSample(cfg: Config) {
    cfg.window >= 1 && cfg.limit >= 1 && cfg.divideHigh >= 1 && cfg.workers >= 2 && cfg.dbPrefixes == [DB_TEXT]
  }

  lemma SampleTexts()
    ensures IsDb([DB_TEXT], DB_TEXT) && !IsDb([DB_TEXT], FAST_TEXT)
  {
    assert [DB_TEXT][0] <= DB_TEXT;
    assert DB_TEXT[0] != FAST_TEXT[0];
    assert !(DB_TEXT <= FAST_TEXT);
    forall i | 0 <= i < |[DB_TEXT]| ensures !([DB_TEXT][i] <= FAST_TEXT) {
      assert [DB_TEXT][i] == DB_TEXT;
    }
  }

  /** Nothing is queued anywhere, worker 0 is idle, nothing has been closed, and numbers from n on are unused. */
  predicate Calm(s: State, n: nat) {
    && s.divideHead == |s.divide| && !s.divideClosed && s.divideHigh >= 1
    && s.waiting == [] && s.waitHead == 0 && !s.waitStopped && s.drain.DrainIdle? && !s.gate.closed
    && CalmRuntime(s.rt, n)
    && s.dbPrefixes == [DB_TEXT]
    && (forall m :: m in s.msgs ==> m < n)
  }

  predicate CalmRuntime(rt: RT.Runtime, n: nat) {
    && rt.workHead == |rt.work| && !rt.workClosed && 0 in rt.workers && rt.workers[0].Idle?
    && (forall m :: m in rt.place ==> m < n) && (forall k :: k in rt.keys ==> k < n)
  }

  // ---------------------------------------------------------------- admission

  /** A connection that holds a message, and may take a slot for it. */
  predicate MayTake(x: Conn) {
    x.at.Have? && Taking(x.flow).yes
  }

  function PastGate(x: Conn, n: MsgId): Conn
    requires x.at.Have?
  {
    TookSlot(x, n).(at := Admitted(n, x.at.text))
  }

  lemma SlotIsTaken(cfg: Config, s: State, c: ConnId, n: MsgId)
    requires Reachable(cfg, s) && Calm(s, n) && c in s.conns && MayTake(s.conns[c])
    ensures CanTakeSlot(s, c, n) && Reachable(cfg, DidTakeSlot(s, c, n))
  {
    assert CanTakeSlot(s, c, n);
    Next(cfg, s, TakeSlot(c, n));
  }

  lemma DbIsAdmitted(cfg: Config, s: State, c: ConnId, n: MsgId) returns (r: State)
    requires Reachable(cfg, s) && Calm(s, n) && c in s.conns && MayTake(s.conns[c])
    requires s.conns[c].at.text == DB_TEXT && CanAcquire(s.gate)
    ensures Reachable(cfg, r)
    ensures r == s.(conns := s.conns[c := PastGate(s.conns[c], n)],
                    msgs := s.msgs[n := Msg(c, DB_TEXT, true, Credited)],
                    credit := s.credit + {n}, gate := Acquired(s.gate))
  {
    SampleTexts();
    SlotIsTaken(cfg, s, c, n);
    var t := DidTakeSlot(s, c, n);
    assert CanAdmitDb(t, c);
    Next(cfg, t, AdmitDb(c));
    r := DidAdmitDb(t, c);
    assert r.conns == s.conns[c := PastGate(s.conns[c], n)];
    assert r.msgs == s.msgs[n := Msg(c, DB_TEXT, true, Credited)];
  }

  lemma FastIsAdmitted(cfg: Config, s: State, c: ConnId, n: MsgId) returns (r: State)
    requires Reachable(cfg, s) && Calm(s, n) && c in s.conns && MayTake(s.conns[c])
    requires s.conns[c].at.text == FAST_TEXT
    ensures Reachable(cfg, r)
    ensures r == s.(conns := s.conns[c := PastGate(s.conns[c], n)],
                    msgs := s.msgs[n := Msg(c, FAST_TEXT, false, InHand)])
  {
    SampleTexts();
    SlotIsTaken(cfg, s, c, n);
    var t := DidTakeSlot(s, c, n);
    assert CanAdmitFast(t, c);
    Next(cfg, t, AdmitFast(c));
    r := SetConn(t, c, PastAdmission(t.conns[c]));
    assert r.conns == s.conns[c := PastGate(s.conns[c], n)];
  }

  // ---------------------------------------------------------------- the parse pool

  /** Message n is at stage `stage` and nothing else about messages has changed. */
  function Moved(msgs: map<MsgId, Msg>, n: MsgId, stage: Stage): map<MsgId, Msg>
    requires n in msgs
  {
    msgs[n := msgs[n].(stage := stage)]
  }

  /** An admitted message is pushed to the empty parse queue. */
  lemma IsDispatched(cfg: Config, s: State, c: ConnId, n: MsgId) returns (r: State)
    requires Reachable(cfg, s) && c in s.conns && n in s.msgs && s.conns[c].at.Admitted? && s.conns[c].at.m == n
    requires s.divideHead == |s.divide| && !s.divideClosed && s.divideHigh >= 1
    ensures Reachable(cfg, r)
    ensures r == s.(conns := s.conns[c := DispatchedOne(s.conns[c])], msgs := Moved(s.msgs, n, InDivide(|s.divide|)),
                    divide := s.divide + [n], divideTally := r.divideTally)
  {
    Next(cfg, s, CountDivide);
    var t := s.(divideTally := Counted(s.divideTally));
    assert CanDispatch(t, c) && DivideOpen(t) && !DivideFull(t);
    Next(cfg, t, DispatchOk(c));
    r := DidDispatchOk(t, c);
  }

  predicate LastInDivide(s: State, n: MsgId) {
    s.divideHead + 1 == |s.divide| && s.divide[s.divideHead] == n && n in s.msgs
  }

  lemma IsPoppedForParse(cfg: Config, s: State, n: MsgId) returns (r: State)
    requires Reachable(cfg, s) && LastInDivide(s, n)
    ensures Reachable(cfg, r) && IsParsing(r, n)
    ensures r == s.(msgs := Moved(s.msgs, n, Parsing), divideHead := |s.divide|, parsing := s.parsing + {n})
  {
    Next(cfg, s, ParsePop);
    r := DidParsePop(s);
  }

  lemma WorkIsCounted(cfg: Config, s: State)
    requires Reachable(cfg, s)
    ensures Reachable(cfg, s.(rt := s.rt.(workTally := Counted(s.rt.workTally))))
  {
    Next(cfg, s, Work(RT.CountWork));
  }

  lemma IsHandedToWork(cfg: Config, s: State, n: MsgId) returns (r: State)
    requires Reachable(cfg, s) && CanParseOk(s, n)
    ensures Reachable(cfg, r)
    ensures r == s.(msgs := Moved(s.msgs, n, InWork), parsing := s.parsing - {n}, parseDone := s.parseDone + 1,
                    rt := RT.PushFlow(s.rt, n))
  {
    Next(cfg, s, ParseOk(n));
    r := DidParseOk(s, n);
  }

  lemma MovedTwice(msgs: map<MsgId, Msg>, n: MsgId, first: Stage, second: Stage)
    requires n in msgs
    ensures Moved(Moved(msgs, n, first), n, second) == Moved(msgs, n, second)
  {
  }

  /** It is parsed and pushed to the work queue. */
  lemma IsParsed(cfg: Config, s: State, n: MsgId) returns (r: State)
    requires Reachable(cfg, s) && LastInDivide(s, n) && !s.rt.workClosed
    ensures Reachable(cfg, r)
    ensures r == s.(msgs := Moved(s.msgs, n, InWork), divideHead := |s.divide|, parsing := r.parsing,
                    parseDone := r.parseDone, rt := r.rt)
    ensures r.rt == s.rt.(work := s.rt.work + [RT.RunFlow(n)], place := s.rt.place[n := RT.Queued(|s.rt.work|)],
                          workTally := r.rt.workTally)
  {
    WorkIsCounted(cfg, s);
    var t := IsPoppedForParse(cfg, s.(rt := s.rt.(workTally := Counted(s.rt.workTally))), n);
    r := IsHandedToWork(cfg, t, n);
    MovedTwice(s.msgs, n, Parsing, InWork);
  }

  /** Its parse throws. */
  lemma IsLost(cfg: Config, s: State, n: MsgId) returns (r: State)
    requires Reachable(cfg, s) && LastInDivide(s, n)
    ensures Reachable(cfg, r)
    ensures r == s.(msgs := Moved(s.msgs, n, ParseFailed), divideHead := |s.divide|, parsing := r.parsing,
                    parseDone := r.parseDone)
  {
    var t := IsPoppedForParse(cfg, s, n);
    Next(cfg, t, ParseThrow(n));
    r := ParsedTo(t, n, ParseFailed);
    MovedTwice(s.msgs, n, Parsing, ParseFailed);
  }

  // ---------------------------------------------------------------- the runtime

  predicate LastInWork(rt: RT.Runtime, m: RT.Flow) {
    rt.workHead + 1 == |rt.work| && rt.work[rt.workHead] == RT.RunFlow(m) && !rt.workClosed
  }

  /** Worker 0 runs the flow that was pushed, up to the insertion of its task for query k. */
  function BlockSteps(k: nat): seq<RT.Event> {
    [RT.PopTask(0), RT.Suspend(0, k), RT.CountDb]
  }

  lemma FlowBlocks(rt: RT.Runtime, m: RT.Flow, k: nat)
    requires LastInWork(rt, m) && 0 in rt.workers && rt.workers[0].Idle? && k !in rt.keys
    ensures RT.Possible(rt, BlockSteps(k)) && var q := RT.Run(rt, BlockSteps(k));
      && q == rt.(workHead := |rt.work|, workers := q.workers, guards := q.guards, registry := q.registry,
                  keys := q.keys, place := rt.place[m := RT.Executing(0)], dbTally := q.dbTally)
      && q.workers == rt.workers[0 := RT.Awaiting(m, k, |rt.guards|, false)]
      && q.keys == rt.keys[k := RT.KeyInfo(m, |rt.guards|, RT.Inserting(0))]
      && q.dbTally.adding > 0
  {
    var steps := BlockSteps(k);
    var r1 := RT.Popped(rt, 0);
    assert RT.CanPop(rt, 0) && RT.Enabled(rt, steps[0]) && RT.Step(rt, steps[0]) == r1;
    assert RT.CanSuspend(r1, 0, k);
    var r2 := RT.DidSuspend(r1, 0, k);
    assert steps[1..] == [RT.Suspend(0, k), RT.CountDb] && steps[1..][1..] == [RT.CountDb];
    assert r2.workers == rt.workers[0 := RT.Awaiting(m, k, |rt.guards|, false)];
    var r3 := RT.Step(r2, RT.CountDb);
    assert RT.Possible(r2, [RT.CountDb]) && RT.Run(r2, [RT.CountDb]) == r3;
    assert RT.Possible(r1, steps[1..]) && RT.Run(r1, steps[1..]) == r3;
  }

  lemma IsBlocked(cfg: Config, s: State, m: RT.Flow, k: nat) returns (r: State)
    requires Reachable(cfg, s) && LastInWork(s.rt, m) && 0 in s.rt.workers && s.rt.workers[0].Idle? && k !in s.rt.keys
    ensures Reachable(cfg, r) && r == s.(rt := r.rt)
    ensures AtAwait(r.rt, m, k) && r.rt.workers == s.rt.workers[0 := r.rt.workers[0]]
    ensures r.rt.workHead == |r.rt.work| && !r.rt.workClosed
    ensures r.rt.keys.Keys == s.rt.keys.Keys + {k} && r.rt.place == s.rt.place[m := RT.Executing(0)]
  {
    FlowBlocks(s.rt, m, k);
    RuntimeStretch(cfg, s, BlockSteps(k));
    r := s.(rt := RT.Run(s.rt, BlockSteps(k)));
  }

  /** Worker 0 has filed the task of flow m under key k, and counted the query. */
  predicate AtAwait(rt: RT.Runtime, m: RT.Flow, k: nat) {
    && 0 in rt.workers && rt.workers[0].Awaiting? && rt.workers[0].flow == m && rt.workers[0].key == k
    && !rt.workers[0].submitted && k in rt.keys && rt.dbTally.adding > 0
    && m in rt.place && rt.place[m] == RT.Executing(0)
  }

  /** It submits the query, and the worker returns. */
  const LEAVE_STEPS: seq<RT.Event> := [RT.SubmitQuery(0), RT.FnSuspended(0), RT.FinishTask(0)]

  lemma QueryIsSubmitted(rt: RT.Runtime, m: RT.Flow, k: nat)
    requires AtAwait(rt, m, k)
    ensures RT.CanSubmitQuery(rt, 0) && var q := RT.DidSubmitQuery(rt, 0);
      && q == rt.(workers := rt.workers[0 := rt.workers[0].(submitted := true)], keys := q.keys, db := q.db,
                  dbTally := q.dbTally)
      && q.keys.Keys == rt.keys.Keys
  {
  }

  lemma FlowLeaves(rt: RT.Runtime, m: RT.Flow, k: nat)
    requires AtAwait(rt, m, k)
    ensures RT.Possible(rt, LEAVE_STEPS) && var q := RT.Run(rt, LEAVE_STEPS);
      && q == rt.(workers := rt.workers[0 := RT.Idle], workTally := q.workTally, finished := q.finished, keys := q.keys,
                  db := q.db, dbTally := q.dbTally, place := rt.place[m := RT.Suspended(k)])
      && q.keys.Keys == rt.keys.Keys
  {
    QueryIsSubmitted(rt, m, k);
    var r1 := RT.DidSubmitQuery(rt, 0);
    WorkerReturns(r1, m, k);
    assert LEAVE_STEPS[1..] == [RT.FnSuspended(0), RT.FinishTask(0)];
    assert RT.Step(rt, LEAVE_STEPS[0]) == r1;
    assert r1.workers[0 := RT.Idle] == rt.workers[0 := RT.Idle];
  }

  lemma WorkerReturns(rt: RT.Runtime, m: RT.Flow, k: nat)
    requires 0 in rt.workers && rt.workers[0].Awaiting? && rt.workers[0].flow == m && rt.workers[0].key == k
    requires rt.workers[0].submitted && m in rt.place && rt.place[m] == RT.Executing(0)
    ensures var steps := [RT.FnSuspended(0), RT.FinishTask(0)]; RT.Possible(rt, steps) && var q := RT.Run(rt, steps);
      q == rt.(workers := rt.workers[0 := RT.Idle], workTally := q.workTally, finished := q.finished,
               place := rt.place[m := RT.Suspended(k)])
  {
    var steps := [RT.FnSuspended(0), RT.FinishTask(0)];
    var r2 := RT.LeftSuspended(rt, 0);
    var r3 := RT.DidFinishTask(r2, 0);
    assert r3.workers == rt.workers[0 := RT.Idle];
    assert steps[1..] == [RT.FinishTask(0)];
    assert RT.Possible(r2, [RT.FinishTask(0)]) && RT.Run(r2, [RT.FinishTask(0)]) == r3;
  }

  lemma HasLeft(cfg: Config, s: State, m: RT.Flow, k: nat) returns (r: State)
    requires Reachable(cfg, s) && AtAwait(s.rt, m, k)
    ensures Reachable(cfg, r) && r == s.(rt := r.rt)
    ensures r.rt.workers == s.rt.workers[0 := RT.Idle] && r.rt.work == s.rt.work && r.rt.workHead == s.rt.workHead
    ensures r.rt.workClosed == s.rt.workClosed && r.rt.keys.Keys == s.rt.keys.Keys
    ensures r.rt.place == s.rt.place[m := RT.Suspended(k)]
  {
    FlowLeaves(s.rt, m, k);
    RuntimeStretch(cfg, s, LEAVE_STEPS);
    r := s.(rt := RT.Run(s.rt, LEAVE_STEPS));
  }

  lemma FlowSleeps(cfg: Config, s: State, m: RT.Flow, k: nat) returns (r: State)
    requires Reachable(cfg, s) && LastInWork(s.rt, m) && 0 in s.rt.workers && s.rt.workers[0].Idle? && k !in s.rt.keys
    ensures Reachable(cfg, r)
    ensures r == s.(rt := r.rt) && r.rt.workers == s.rt.workers && r.rt.workHead == |r.rt.work| && !r.rt.workClosed
    ensures r.rt.keys.Keys == s.rt.keys.Keys + {k} && r.rt.place == s.rt.place[m := RT.Suspended(k)]
  {
    var t := IsBlocked(cfg, s, m, k);
    r := HasLeft(cfg, t, m, k);
    SetTwice(s.rt.workers, 0, t.rt.workers[0], RT.Idle);
    SetTwice(s.rt.place, m, RT.Executing(0), RT.Suspended(k));
    assert s.rt.workers[0 := RT.Idle] == s.rt.workers;
  }

  lemma SetTwice<K, V>(entries: map<K, V>, k: K, v: V, w: V)
    ensures entries[k := v][k := w] == entries[k := w]
  {
  }

  // ---------------------------------------------------------------- whole messages

  /** Message n of connection c has been taken up and its flow sleeps in the registry. */
  predicate Asleep(s: State, r: State, c: ConnId, n: MsgId) {
    && Calm(r, n + 1) && c in s.conns && s.conns[c].at.Admitted? && n in s.msgs
    && r.conns == s.conns[c := DispatchedOne(s.conns[c])]
    && r.msgs == Moved(s.msgs, n, InWork)
    && r.gate == s.gate && r.credit == s.credit && r.rt.workers == s.rt.workers && r.window == s.window
  }

  predicate OnlyNew(s: State, n: MsgId) {
    Calm(s.(msgs := s.msgs - {n}), n)
  }

  /** Message n of connection c has been taken up, parsed and pushed to the work queue. */
  predicate WentToWork(s: State, r: State, c: ConnId, n: MsgId) {
    && c in s.conns && s.conns[c].at.Admitted? && n in s.msgs
    && r == s.(conns := s.conns[c := DispatchedOne(s.conns[c])], msgs := Moved(s.msgs, n, InWork),
               divide := r.divide, divideHead := r.divideHead, divideTally := r.divideTally,
               parsing := r.parsing, parseDone := r.parseDone, rt := r.rt)
    && r.divideHead == |r.divide| && r.rt.place == s.rt.place[n := RT.Queued(|s.rt.work|)]
    && r.rt == s.rt.(work := r.rt.work, place := r.rt.place, workTally := r.rt.workTally) && LastInWork(r.rt, n)
    && (forall m :: m in r.msgs ==> m < n + 1)
  }

  lemma GoesToWork(cfg: Config, s: State, c: ConnId, n: MsgId) returns (r: State)
    requires Reachable(cfg, s) && OnlyNew(s, n)
    requires c in s.conns && n in s.msgs && s.conns[c].at.Admitted? && s.conns[c].at.m == n
    ensures Reachable(cfg, r) && WentToWork(s, r, c, n)
  {
    var t := IsDispatched(cfg, s, c, n);
    r := IsParsed(cfg, t, n);
    assert r.msgs == Moved(s.msgs, n, InWork);
    StillBelow(s.msgs, n, InWork);
  }

  lemma FallsAsleep(cfg: Config, s: State, c: ConnId, n: MsgId) returns (r: State)
    requires Reachable(cfg, s) && OnlyNew(s, n)
    requires c in s.conns && n in s.msgs && s.conns[c].at.Admitted? && s.conns[c].at.m == n
    ensures Reachable(cfg, r) && Asleep(s, r, c, n)
  {
    var t := GoesToWork(cfg, s, c, n);
    r := FlowSleeps(cfg, t, n, n);
  }

  lemma StillBelow(msgs: map<MsgId, Msg>, n: MsgId, stage: Stage)
    requires n in msgs && forall m :: m in msgs - {n} ==> m < n
    ensures forall m :: m in Moved(msgs, n, stage) ==> m < n + 1
  {
    forall m | m in msgs ensures m < n + 1 {
      assert m == n || m in msgs - {n};
    }
  }

  /** Message n of connection c has been taken up and lost in a failed parse. */
  predicate LostAtParse(s: State, r: State, c: ConnId, n: MsgId) {
    && Calm(r, n + 1) && c in s.conns && s.conns[c].at.Admitted? && n in s.msgs
    && r.conns == s.conns[c := DispatchedOne(s.conns[c])]
    && r.msgs == Moved(s.msgs, n, ParseFailed)
    && r.gate == s.gate && r.credit == s.credit && r.rt == s.rt && r.window == s.window
  }

  lemma FailsToParse(cfg: Config, s: State, c: ConnId, n: MsgId) returns (r: State)
    requires Reachable(cfg, s) && OnlyNew(s, n)
    requires c in s.conns && n in s.msgs && s.conns[c].at.Admitted? && s.conns[c].at.m == n
    ensures Reachable(cfg, r) && LostAtParse(s, r, c, n)
  {
    var t := IsDispatched(cfg, s, c, n);
    r := IsLost(cfg, t, n);
    assert r.msgs == Moved(s.msgs, n, ParseFailed);
    StillBelow(s.msgs, n, ParseFailed);
  }

  // ---------------------------------------------------------------- connections

  /** A connection whose reactor is about to read, with k of its w slots taken. */
  predicate Ready(x: Conn, w: int, k: int) {
    && x.connected && x.buffer == "" && x.at.Top? && !x.paused && x.flow == Flow(w, k, k >= w, false)
    && !x.resumeBucket && !x.resumeLocal && !x.retryBucket && !x.retryLocal
    && x.parked == {} && x.dropped == {} && x.pausedFor.None? && x.needy == {} && !x.raced
  }

  lemma FrameIsCut(text: string, more: string)
    requires |text| <= MAX_FRAME_BYTES
    ensures TakeOne(SendPreview(text) + more) == Taken(text, more) && SendPreview(text) + more != ""
  {
    RoundTrip(text, more);
  }

  /** It has read one frame and the bytes behind it, and cut the frame. */
  function Holding(x: Conn, text: string, more: string): Conn {
    x.(buffer := more, at := Have(text), received := x.received + (SendPreview(text) + more))
  }

  lemma FrameIsRead(x: Conn, text: string, more: string, w: int, k: int)
    requires Ready(x, w, k) && |text| <= MAX_FRAME_BYTES
    ensures var steps := [ReadBytes(SendPreview(text) + more), CutMessage];
      CanAll(x, steps) && DoAll(x, steps) == Holding(x, text, more)
  {
    FrameIsCut(text, more);
    var bytes := SendPreview(text) + more;
    var steps := [ReadBytes(bytes), CutMessage];
    var x1 := Do(x, ReadBytes(bytes));
    assert x1.buffer == bytes;
    assert steps[1..] == [CutMessage] && CanAll(x1, [CutMessage]) && DoAll(x1, [CutMessage]) == Do(x1, CutMessage);
  }

  lemma FrameArrives(cfg: Config, s: State, c: ConnId, text: string, more: string, k: int)
    requires Reachable(cfg, s) && c in s.conns && Ready(s.conns[c], s.window, k) && |text| <= MAX_FRAME_BYTES
    ensures Reachable(cfg, SetConn(s, c, Holding(s.conns[c], text, more)))
  {
    FrameIsRead(s.conns[c], text, more, s.window, k);
    ReactorStretch(cfg, s, c, [ReadBytes(SendPreview(text) + more), CutMessage]);
  }

  lemma NewcomerOpens(cfg: Config, s: State, c: ConnId)
    requires Reachable(cfg, s) && c !in s.conns
    ensures Reachable(cfg, SetConn(s, c, NewConn(s.window)))
  {
    Next(cfg, s, Open(c));
  }

  lemma ReadIsEntered(cfg: Config, s: State, c: ConnId)
    requires Reachable(cfg, s) && c in s.conns && s.conns[c].at.Out? && s.conns[c].connected
    ensures Reachable(cfg, SetConn(s, c, s.conns[c].(at := Top)))
  {
    Next(cfg, s, Reactor(c, EnterRead));
  }

  lemma NewcomerReads(cfg: Config, s: State, c: ConnId) returns (x: Conn)
    requires Reachable(cfg, s) && c !in s.conns && s.window >= 1
    ensures Ready(x, s.window, 0) && Reachable(cfg, SetConn(s, c, x))
  {
    NewcomerOpens(cfg, s, c);
    var t := SetConn(s, c, NewConn(s.window));
    ReadIsEntered(cfg, t, c);
    x := NewConn(s.window).(at := Top);
    assert t.conns[c := x] == s.conns[c := x];
  }
}
