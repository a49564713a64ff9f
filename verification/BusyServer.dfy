/** A server of any size in use: some DB credits and some slots of one connection held by sleeping flows, down to the
    point where the last credit has passed from a worker to the drain thread. */
module BusyServer {
  import opened Framing
  import opened FlowWindow
  import opened CreditGate
  import opened RouteClassifier
  import opened Wrappers
  import opened ReaderControl
  import opened Pipeline
  import opened PipelineTheorems
  import opened Scenario
  import RT = CoroutineRuntime

  // ---------------------------------------------------------------- a server in use

  /** `credits` DB messages and `slots` fast messages of connection 0 are asleep; every message has a number below
      `credits + slots`, and every connection one up to `credits`. */
  predicate InUse(cfg: Config, s: State, credits: nat, slots: nat) {
    && Calm(s, credits + slots) && s.window == cfg.window && s.gate == Gate(cfg.limit, cfg.limit - credits, false)
    && 0 in s.conns && Ready(s.conns[0], cfg.window, slots)
    && (forall c :: c in s.conns ==> c <= credits)
    && 1 in s.rt.workers && s.rt.workers[1].Idle?
  }

  lemma NobodyYet(cfg: Config) returns (s: State)
    requires IsSample(cfg)
    ensures Reachable(cfg, s) && InUse(cfg, s, 0, 0)
  {
    StartIsReachable(cfg);
    var x := NewcomerReads(cfg, NewState(cfg), 0);
    s := SetConn(NewState(cfg), 0, x);
  }

  /** Message n of the new connection c has passed DB admission. */
  predicate Newcomer(s: State, r: State, c: ConnId, n: MsgId) {
    && n !in s.msgs && c !in s.conns && c in r.conns && r.conns[c].at == Admitted(n, DB_TEXT)
    && r == s.(conns := s.conns[c := r.conns[c]], msgs := s.msgs[n := Msg(c, DB_TEXT, true, Credited)],
               credit := s.credit + {n}, gate := Acquired(s.gate))
  }

  lemma NewcomerIsAdmitted(cfg: Config, s: State, c: ConnId, n: MsgId) returns (r: State)
    requires Reachable(cfg, s) && Calm(s, n) && c !in s.conns && s.window >= 1 && CanAcquire(s.gate)
    ensures Reachable(cfg, r) && Newcomer(s, r, c, n) && OnlyNew(r, n)
  {
    var x := NewcomerReads(cfg, s, c);
    var t := SetConn(s, c, x);
    FrameArrives(cfg, t, c, DB_TEXT, "", 0);
    var u := SetConn(t, c, Holding(x, DB_TEXT, ""));
    r := DbIsAdmitted(cfg, u, c, n);
    assert r.conns == s.conns[c := r.conns[c]];
    assert r.msgs - {n} == s.msgs;
  }

  lemma OneMoreCredit(cfg: Config, s: State, credits: nat) returns (r: State)
    requires IsSample(cfg) && Reachable(cfg, s) && InUse(cfg, s, credits, 0) && credits < cfg.limit
    ensures Reachable(cfg, r) && InUse(cfg, r, credits + 1, 0)
  {
    var t := NewcomerIsAdmitted(cfg, s, credits + 1, credits);
    r := NewcomerSleeps(cfg, s, t, credits);
  }

  lemma NewcomerSleeps(cfg: Config, s: State, t: State, credits: nat) returns (r: State)
    requires InUse(cfg, s, credits, 0) && Reachable(cfg, t)
    requires Newcomer(s, t, credits + 1, credits) && OnlyNew(t, credits)
    ensures Reachable(cfg, r) && InUse(cfg, r, credits + 1, 0)
  {
    r := FallsAsleep(cfg, t, credits + 1, credits);
    StillInUse(cfg, s, t, r, credits);
  }

  lemma StillInUse(cfg: Config, s: State, t: State, r: State, credits: nat)
    requires InUse(cfg, s, credits, 0) && Newcomer(s, t, credits + 1, credits) && Asleep(t, r, credits + 1, credits)
    ensures InUse(cfg, r, credits + 1, 0)
  {
  }

  lemma {:induction false} CreditsInUse(cfg: Config, credits: nat) returns (s: State)
    requires IsSample(cfg) && credits <= cfg.limit
    ensures Reachable(cfg, s) && InUse(cfg, s, credits, 0)
  {
    if credits == 0 {
      s := NobodyYet(cfg);
    } else {
      var t := CreditsInUse(cfg, credits - 1);
      s := OneMoreCredit(cfg, t, credits - 1);
    }
  }

  /** Fast message n of connection 0 has passed admission, and will leave it with k slots taken. */
  predicate OneOfItsOwn(s: State, r: State, n: MsgId, k: nat) {
    && 0 in s.conns && 0 in r.conns && n !in s.msgs && r.conns[0].at == Admitted(n, FAST_TEXT)
    && r == s.(conns := s.conns[0 := r.conns[0]], msgs := s.msgs[n := Msg(0, FAST_TEXT, false, InHand)])
    && Ready(DispatchedOne(r.conns[0]), s.window, k)
  }

  lemma OwnIsAdmitted(cfg: Config, s: State, n: MsgId, k: nat) returns (r: State)
    requires Reachable(cfg, s) && Calm(s, n) && 0 in s.conns && Ready(s.conns[0], s.window, k) && k < s.window
    ensures Reachable(cfg, r) && OneOfItsOwn(s, r, n, k + 1) && OnlyNew(r, n)
  {
    FrameArrives(cfg, s, 0, FAST_TEXT, "", k);
    r := FastIsAdmitted(cfg, SetConn(s, 0, Holding(s.conns[0], FAST_TEXT, "")), 0, n);
    assert r.conns == s.conns[0 := r.conns[0]];
    assert r.msgs - {n} == s.msgs;
  }

  lemma OneMoreSlot(cfg: Config, s: State, credits: nat, slots: nat) returns (r: State)
    requires IsSample(cfg) && Reachable(cfg, s) && InUse(cfg, s, credits, slots) && slots < cfg.window
    ensures Reachable(cfg, r) && InUse(cfg, r, credits, slots + 1)
  {
    var t := OwnIsAdmitted(cfg, s, credits + slots, slots);
    r := OwnSleeps(cfg, s, t, credits, slots);
  }

  lemma OwnSleeps(cfg: Config, s: State, t: State, credits: nat, slots: nat) returns (r: State)
    requires InUse(cfg, s, credits, slots) && Reachable(cfg, t)
    requires OneOfItsOwn(s, t, credits + slots, slots + 1) && OnlyNew(t, credits + slots)
    ensures Reachable(cfg, r) && InUse(cfg, r, credits, slots + 1)
  {
    r := FallsAsleep(cfg, t, 0, credits + slots);
    SlotInUse(cfg, s, t, r, credits, slots);
  }

  lemma SlotInUse(cfg: Config, s: State, t: State, r: State, credits: nat, slots: nat)
    requires InUse(cfg, s, credits, slots) && OneOfItsOwn(s, t, credits + slots, slots + 1)
    requires Asleep(t, r, 0, credits + slots)
    ensures InUse(cfg, r, credits, slots + 1)
  {
  }

  lemma {:induction false} SlotsInUse(cfg: Config, credits: nat, slots: nat) returns (s: State)
    requires IsSample(cfg) && credits <= cfg.limit && slots <= cfg.window
    ensures Reachable(cfg, s) && InUse(cfg, s, credits, slots)
  {
    if slots == 0 {
      s := CreditsInUse(cfg, credits);
    } else {
      var t := SlotsInUse(cfg, credits, slots - 1);
      s := OneMoreSlot(cfg, t, credits, slots - 1);
    }
  }

  // ---------------------------------------------------------------- the last credit

  lemma FlowIsPopped(cfg: Config, s: State, m: RT.Flow, w: Thread)
    requires Reachable(cfg, s) && LastInWork(s.rt, m) && w in s.rt.workers && s.rt.workers[w].Idle?
    ensures Reachable(cfg, s.(rt := RT.PoppedFlow(s.rt, w, m)))
  {
    assert RT.CanPop(s.rt, w) && RT.Step(s.rt, RT.PopTask(w)) == RT.PoppedFlow(s.rt, w, m);
    Next(cfg, s, Work(RT.PopTask(w)));
  }

  /** Worker w has run flow m to its end. */
  predicate HasEnded(s: State, r: State, m: RT.Flow, w: Thread) {
    && r == s.(rt := r.rt)
    && r.rt.workers == s.rt.workers[w := RT.Ending(m)] && r.rt.workHead == |r.rt.work| && !r.rt.workClosed
    && r.rt.keys == s.rt.keys && r.rt.place == s.rt.place[m := RT.Executing(w)]
  }

  lemma FlowEnds(cfg: Config, s: State, m: RT.Flow, w: Thread) returns (r: State)
    requires Reachable(cfg, s) && LastInWork(s.rt, m) && w in s.rt.workers && s.rt.workers[w].Idle?
    ensures Reachable(cfg, r) && HasEnded(s, r, m, w)
  {
    FlowIsPopped(cfg, s, m, w);
    var t := s.(rt := RT.PoppedFlow(s.rt, w, m));
    FnReturns(cfg, t, w);
    r := t.(rt := RT.Ended(t.rt, w));
    EndOfFlow(s.rt, m, w);
  }

  lemma EndOfFlow(rt: RT.Runtime, m: RT.Flow, w: Thread)
    requires LastInWork(rt, m) && w in rt.workers
    ensures var q := RT.PoppedFlow(rt, w, m); RT.CanEnd(q, w) && var r := RT.Ended(q, w);
      && r.workers == rt.workers[w := RT.Ending(m)] && r.workHead == |r.work| && !r.workClosed
      && r.keys == rt.keys && r.place == rt.place[m := RT.Executing(w)]
  {
  }

  lemma FnReturns(cfg: Config, s: State, w: Thread)
    requires Reachable(cfg, s) && RT.CanEnd(s.rt, w)
    ensures Reachable(cfg, s.(rt := RT.Ended(s.rt, w)))
  {
    Next(cfg, s, Work(RT.FnEnds(w)));
  }

  lemma CreditIsReturned(cfg: Config, s: State, w: Thread, m: MsgId) returns (r: State)
    requires Reachable(cfg, s) && CanReturnCredit(s, w) && s.rt.workers[w].flow == m && m in s.credit
    requires !s.gate.closed && s.gate.available < s.gate.limit
    ensures Reachable(cfg, r)
    ensures r == s.(msgs := Moved(s.msgs, m, Settled), credit := s.credit - {m},
                    gate := s.gate.(available := s.gate.available + 1),
                    rt := s.rt.(workers := s.rt.workers[w := RT.GivingSlot(m)]))
  {
    Next(cfg, s, ReturnCredit(w));
    r := DidReturnCredit(s, w);
  }

  /** All credits are in use; the flow of message u has ended at worker 1, which is about to return the last one. */
  predicate Spent(cfg: Config, s: State, slots: nat, u: MsgId) {
    && Calm(s, cfg.limit + slots) && s.window == cfg.window && s.gate == Gate(cfg.limit, 0, false)
    && 0 in s.conns && Ready(s.conns[0], cfg.window, slots)
    && CanReturnCredit(s, 1) && s.rt.workers[1].flow == u && u in s.credit
  }

  /** Message u of connection c has got the last credit. */
  predicate LastIsIn(cfg: Config, s: State, slots: nat, c: ConnId, u: MsgId) {
    && OnlyNew(s, u) && s.window == cfg.window && s.gate == Gate(cfg.limit, 0, false) && u in s.credit
    && 0 in s.conns && Ready(s.conns[0], cfg.window, slots) && 1 in s.rt.workers && s.rt.workers[1].Idle?
    && c != 0 && c in s.conns && u in s.msgs && s.msgs[u].conn == c && s.conns[c].at.Admitted? && s.conns[c].at.m == u
  }

  lemma LastGetsIn(cfg: Config, slots: nat) returns (s: State)
    requires IsSample(cfg) && slots <= cfg.window
    ensures Reachable(cfg, s) && LastIsIn(cfg, s, slots, cfg.limit, cfg.limit - 1 + slots)
  {
    var u := cfg.limit - 1 + slots;
    var t := SlotsInUse(cfg, cfg.limit - 1, slots);
    s := NewcomerIsAdmitted(cfg, t, cfg.limit, u);
    NewcomerIsLast(cfg, t, s, slots);
  }

  lemma NewcomerIsLast(cfg: Config, t: State, s: State, slots: nat)
    requires cfg.limit >= 1 && InUse(cfg, t, cfg.limit - 1, slots)
    requires Newcomer(t, s, cfg.limit, cfg.limit - 1 + slots) && OnlyNew(s, cfg.limit - 1 + slots)
    ensures LastIsIn(cfg, s, slots, cfg.limit, cfg.limit - 1 + slots)
  {
  }

  /** Its flow has ended at worker 1, and nothing else has happened to the gate and the connections. */
  predicate LastHasEnded(t: State, s: State, c: ConnId, u: MsgId) {
    && Calm(s, u + 1) && s.window == t.window && s.gate == t.gate
    && c in t.conns && t.conns[c].at.Admitted? && s.conns == t.conns[c := DispatchedOne(t.conns[c])]
    && CanReturnCredit(s, 1) && s.rt.workers[1].flow == u && u in s.credit
  }

  lemma LastFlowEnds(cfg: Config, s: State, c: ConnId, u: MsgId) returns (r: State)
    requires Reachable(cfg, s) && OnlyNew(s, u) && u in s.credit && 1 in s.rt.workers && s.rt.workers[1].Idle?
    requires c in s.conns && u in s.msgs && s.msgs[u].conn == c && s.conns[c].at.Admitted? && s.conns[c].at.m == u
    ensures Reachable(cfg, r) && LastHasEnded(s, r, c, u)
  {
    var t := GoesToWork(cfg, s, c, u);
    r := FlowEnds(cfg, t, u, 1);
    LastEnds(s, t, r, c, u);
  }

  lemma LastEnds(s: State, t: State, r: State, c: ConnId, u: MsgId)
    requires OnlyNew(s, u) && u in s.credit && 1 in s.rt.workers && u in s.msgs && s.msgs[u].conn == c
    requires WentToWork(s, t, c, u) && HasEnded(t, r, u, 1)
    ensures LastHasEnded(s, r, c, u)
  {
  }

  lemma LastIsSpent(cfg: Config, t: State, s: State, slots: nat, c: ConnId, u: MsgId)
    requires LastIsIn(cfg, t, slots, c, u) && LastHasEnded(t, s, c, u) && u + 1 == cfg.limit + slots
    ensures Spent(cfg, s, slots, u)
  {
  }

  lemma CreditsAreSpent(cfg: Config, slots: nat) returns (s: State, u: MsgId)
    requires IsSample(cfg) && slots <= cfg.window
    ensures Reachable(cfg, s) && Spent(cfg, s, slots, u)
  {
    u := cfg.limit - 1 + slots;
    var t := LastGetsIn(cfg, slots);
    s := LastFlowEnds(cfg, t, cfg.limit, u);
    LastIsSpent(cfg, t, s, slots, cfg.limit, u);
  }

  // ---------------------------------------------------------------- a message waits for the last credit

  /** The reactor has put message n into the DB waiting queue, and has not called `pause_reading` yet; another frame is
      in the buffer. */
  predicate JustParked(x: Conn, n: MsgId, w: int, k: int) {
    && x.connected && x.at == Parked(n) && !x.paused && x.buffer == SendPreview(DB_TEXT)
    && x.flow == Flow(w, k, k >= w, false)
    && !x.resumeBucket && !x.resumeLocal && !x.retryBucket && !x.retryLocal
    && x.parked == {n} && x.dropped == {} && x.pausedFor.None? && x.needy == {} && !x.raced
  }

  lemma IsStarved(cfg: Config, s: State, c: ConnId, n: MsgId) returns (r: State)
    requires Reachable(cfg, s) && Calm(s, n) && c in s.conns && MayTake(s.conns[c]) && s.conns[c].at.text == DB_TEXT
    requires s.gate.available == 0
    ensures Reachable(cfg, r) && n !in s.msgs
    ensures r == s.(conns := s.conns[c := TookSlot(s.conns[c], n).(at := Starved(n, DB_TEXT))],
                    msgs := s.msgs[n := Msg(c, DB_TEXT, true, InHand)])
  {
    SampleTexts();
    SlotIsTaken(cfg, s, c, n);
    var t := DidTakeSlot(s, c, n);
    assert CanStarve(t, c);
    Next(cfg, t, Starve(c));
    r := SetConn(t, c, OutOfCredit(t.conns[c]));
    assert r.conns == s.conns[c := TookSlot(s.conns[c], n).(at := Starved(n, DB_TEXT))];
  }

  lemma IsFiled(cfg: Config, s: State, c: ConnId, n: MsgId) returns (r: State)
    requires Reachable(cfg, s) && c in s.conns && s.conns[c].at.Starved? && s.conns[c].at.m == n && n in s.msgs
    requires s.waiting == [] && !s.waitStopped
    ensures Reachable(cfg, r)
    ensures r == s.(conns := s.conns[c := ParkedOne(s.conns[c])], msgs := Moved(s.msgs, n, Waiting(0)), waiting := [n])
  {
    Next(cfg, s, AddWaiting(c));
    r := DidAddWaiting(s, c);
    assert s.waiting + [n] == [n];
  }

  lemma ParksAfterReading(x: Conn, n: MsgId, w: int, k: int)
    requires Ready(x, w, k) && k < w
    ensures var y := Holding(x, DB_TEXT, SendPreview(DB_TEXT));
      MayTake(y) && JustParked(ParkedOne(TookSlot(y, n).(at := Starved(n, DB_TEXT))), n, w, k + 1)
  {
  }

  lemma IsParked(cfg: Config, s: State, c: ConnId, n: MsgId) returns (r: State)
    requires Reachable(cfg, s) && Calm(s, n) && c in s.conns && MayTake(s.conns[c]) && s.conns[c].at.text == DB_TEXT
    requires s.gate.available == 0
    ensures Reachable(cfg, r) && n !in s.msgs
    ensures r == s.(conns := s.conns[c := ParkedOne(TookSlot(s.conns[c], n).(at := Starved(n, DB_TEXT)))],
                    msgs := s.msgs[n := Msg(c, DB_TEXT, true, Waiting(0))], waiting := [n])
  {
    var t := IsStarved(cfg, s, c, n);
    r := IsFiled(cfg, t, c, n);
    SetTwice(s.conns, c, t.conns[c], r.conns[c]);
    SetTwice(s.msgs, n, t.msgs[n], r.msgs[n]);
  }

  /** Message n of connection c, and nothing else, waits for a credit. */
  predicate WaitsAlone(s: State, r: State, c: ConnId, n: MsgId) {
    && c in r.conns && n !in s.msgs
    && r == s.(conns := s.conns[c := r.conns[c]], msgs := s.msgs[n := Msg(c, DB_TEXT, true, Waiting(0))],
               waiting := [n])
  }

  lemma WaitsForCredit(cfg: Config, s: State, c: ConnId, n: MsgId, k: nat) returns (r: State)
    requires Reachable(cfg, s) && Calm(s, n) && s.gate.available == 0
    requires c in s.conns && Ready(s.conns[c], s.window, k) && k < s.window
    ensures Reachable(cfg, r) && WaitsAlone(s, r, c, n) && JustParked(r.conns[c], n, s.window, k + 1)
  {
    FrameArrives(cfg, s, c, DB_TEXT, SendPreview(DB_TEXT), k);
    ParksAfterReading(s.conns[c], n, s.window, k);
    var t := SetConn(s, c, Holding(s.conns[c], DB_TEXT, SendPreview(DB_TEXT)));
    r := IsParked(cfg, t, c, n);
    SetTwice(s.conns, c, t.conns[c], r.conns[c]);
  }

  /** The connection has been paused for message n and left to the DB side. */
  function LeftPaused(x: Conn, n: MsgId): Conn {
    x.(paused := true, pausedFor := Some(n), at := Out)
  }

  lemma ReactorPauses(cfg: Config, s: State, c: ConnId, n: MsgId, k: int)
    requires Reachable(cfg, s) && c in s.conns && JustParked(s.conns[c], n, s.window, k)
    ensures Reachable(cfg, SetConn(s, c, LeftPaused(s.conns[c], n)))
  {
    var x := s.conns[c];
    var steps := [PauseReading, LeaveLoop];
    var x1 := Do(x, PauseReading);
    assert steps[1..] == [LeaveLoop] && CanAll(x1, [LeaveLoop]) && DoAll(x1, [LeaveLoop]) == Do(x1, LeaveLoop);
    ReactorStretch(cfg, s, c, steps);
  }

  lemma FrameIsReady(x: Conn)
    requires x.buffer == SendPreview(DB_TEXT)
    ensures FrameReady(x)
  {
    FrameIsCut(DB_TEXT, "");
    assert x.buffer + "" == x.buffer;
  }

  lemma IsTakenByDrain(cfg: Config, s: State, n: MsgId) returns (r: State)
    requires Reachable(cfg, s) && s.drain.DrainIdle? && s.waiting == [n] && s.waitHead == 0 && !s.waitStopped
    requires n in s.msgs && s.msgs[n].conn in s.conns && CanAcquire(s.gate)
    ensures Reachable(cfg, r)
    ensures r == s.(msgs := Moved(s.msgs, n, DrainCredited), waitHead := 1, drain := DrainMayPost(n),
                    credit := s.credit + {n}, gate := Acquired(s.gate))
  {
    Next(cfg, s, DrainPop);
    var t := DidDrainPop(s);
    assert CanDrainAcquire(t);
    Next(cfg, t, DrainAcquire);
    r := DidDrainAcquire(t);
    assert r.msgs == Moved(s.msgs, n, DrainCredited);
  }

  /** The last credit has come back and gone to the drain thread, which holds message n of connection 0. */
  predicate DrainHasCredit(cfg: Config, s: State, slots: nat) {
    var n := cfg.limit + slots;
    && s.divideHead == |s.divide| && !s.divideClosed && s.divideHigh >= 1
    && CalmRuntime(s.rt, n) && s.window == cfg.window && s.gate == Gate(cfg.limit, 0, false) && !s.waitStopped
    && 0 in s.conns && JustParked(s.conns[0], n, cfg.window, slots + 1)
    && n in s.msgs && s.msgs[n] == Msg(0, DB_TEXT, true, DrainCredited) && n in s.credit && s.drain == DrainMayPost(n)
  }

  lemma LastCreditForDrain(cfg: Config, slots: nat) returns (s: State)
    requires IsSample(cfg) && slots < cfg.window
    ensures Reachable(cfg, s) && DrainHasCredit(cfg, s, slots)
  {
    var n := cfg.limit + slots;
    var s0, u := CreditsAreSpent(cfg, slots);
    var s1 := WaitsForCredit(cfg, s0, 0, n, slots);
    assert CanReturnCredit(s1, 1);
    var s2 := CreditIsReturned(cfg, s1, 1, u);
    s := IsTakenByDrain(cfg, s2, n);
  }
}
