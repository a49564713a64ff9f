/** The race between a worker and `process_pending_resume`, played out on a server of any size that has not begun to
    shut down: a run that ends with a connected connection holding a complete frame, room in its window, and nobody
    left to look at it. */
module RaceRun {
  import opened Framing
  import opened FlowWindow
  import opened CreditGate
  import opened ReaderControl
  import opened Pipeline
  import opened PipelineTheorems
  import opened Wrappers
  import opened StuckConnections
  import opened Forfeits
  import opened Scenario
  import opened BusyServer
  import RT = CoroutineRuntime

  /** The drain thread posts the message and schedules the resume - all before the reactor calls `pause_reading`. */
  lemma IsPosted(cfg: Config, s: State, slots: nat) returns (r: State)
    requires Reachable(cfg, s) && DrainHasCredit(cfg, s, slots)
    ensures Reachable(cfg, r)
    ensures var n := cfg.limit + slots;
      r == s.(msgs := Moved(s.msgs, n, InDivide(|s.divide|)), drain := DrainMustSchedule(n),
              divide := s.divide + [n], divideTally := r.divideTally)
  {
    Next(cfg, s, CountDivide);
    var t := s.(divideTally := IdleCount.Counted(s.divideTally));
    Next(cfg, t, DrainPost);
    r := DidDrainPost(t);
  }

  lemma IsScheduled(cfg: Config, s: State, n: MsgId) returns (r: State)
    requires Reachable(cfg, s) && s.drain == DrainMustSchedule(n) && n in s.msgs && s.msgs[n].conn == 0 && 0 in s.conns
    ensures Reachable(cfg, r)
    ensures r == s.(conns := s.conns[0 := Rescheduled(s.conns[0], n)], drain := DrainIdle)
  {
    Next(cfg, s, DrainSchedule);
    r := DidDrainSchedule(s);
  }

  /** The reactor of x has not paused yet, but the resume is already in its bucket; the window is used up. */
  predicate ResumeCameFirst(x: Conn, w: int) {
    && x.connected && x.at.Parked? && !x.paused && x.buffer == SendPreview(DB_TEXT) && x.flow == Flow(w, w, true, false)
    && x.resumeBucket && !x.resumeLocal && !x.retryBucket && !x.retryLocal
    && x.parked == {} && x.dropped == {} && x.pausedFor.None? && x.needy == {} && !x.raced
  }

  /** Nothing has been closed, and the gate has a credit. */
  predicate InService(s: State) {
    !s.divideClosed && !s.waitStopped && CanAcquire(s.gate) && !s.rt.workClosed && s.drain.DrainIdle?
  }

  /** Worker 0 has returned the credit of message n, and is about to give its slot back. */
  predicate WorkerGivesSlot(cfg: Config, s: State, n: MsgId) {
    && 0 in s.conns && n in s.msgs && s.msgs[n].conn == 0
    && 0 in s.rt.workers && s.rt.workers[0] == RT.GivingSlot(n)
    && InService(s)
  }

  lemma ResumeIsFirst(x: Conn, n: MsgId, w: int)
    requires JustParked(x, n, w, w)
    ensures ResumeCameFirst(Rescheduled(x, n), w)
  {
    assert x.parked - {n} == {};
  }

  lemma MessageIsServed(cfg: Config, s: State, slots: nat, n: MsgId) returns (r: State)
    requires Reachable(cfg, s) && DrainHasCredit(cfg, s, slots) && cfg.limit >= 1
    requires n == cfg.limit + slots && slots + 1 == cfg.window
    ensures Reachable(cfg, r) && WorkerGivesSlot(cfg, r, n) && ResumeCameFirst(r.conns[0], cfg.window)
  {
    ResumeIsFirst(s.conns[0], n, cfg.window);
    var s1 := IsPosted(cfg, s, slots);
    var s2 := IsScheduled(cfg, s1, n);
    var s3 := IsParsed(cfg, s2, n);
    var s4 := FlowEnds(cfg, s3, n, 0);
    r := CreditIsReturned(cfg, s4, 0, n);
  }

  // ---------------------------------------------------------------- the race

  const PAUSE_AND_RESUME := [PauseReading, LeaveLoop, SwapResume, ConsumeResume]

  /** Now the reactor pauses, finds the resume and consumes it. */
  lemma ReactorConsumes(x: Conn, w: int)
    requires ResumeCameFirst(x, w)
    ensures CanAll(x, PAUSE_AND_RESUME)
    ensures DoAll(x, PAUSE_AND_RESUME)
         == x.(paused := true, pausedFor := Some(x.at.m), at := MidResume(false), resumeBucket := false)
  {
    var x1 := Do(x, PauseReading);
    var x2 := Do(x1, LeaveLoop);
    var x3 := Do(x2, SwapResume);
    assert PAUSE_AND_RESUME[1..][1..][1..] == [ConsumeResume] && CanAll(x3, [ConsumeResume]);
    assert PAUSE_AND_RESUME[1..][1..] == [SwapResume, ConsumeResume] && CanAll(x2, [SwapResume, ConsumeResume]);
    assert PAUSE_AND_RESUME[1..] == [LeaveLoop, SwapResume, ConsumeResume];
    assert CanAll(x1, PAUSE_AND_RESUME[1..]) && DoAll(x1, PAUSE_AND_RESUME[1..]) == Do(x3, ConsumeResume);
  }

  /** The worker gives the slot back, is told to resume, looks at the flag - and leaves the resume to the reactor. */
  lemma WorkerRaces(cfg: Config, s: State, n: MsgId, w: int) returns (r: State)
    requires Reachable(cfg, s) && WorkerGivesSlot(cfg, s, n) && w >= 1
    requires s.conns[0].paused && s.conns[0].at == MidResume(false) && s.conns[0].needy == {}
    requires s.conns[0].flow == Flow(w, w, true, false)
    ensures Reachable(cfg, r) && 0 in r.conns
    ensures var x := s.conns[0];
      r.conns[0] == x.(flow := Flow(w, w - 1, false, true), slots := x.slots - {n}, raced := true)
    ensures InService(r)
  {
    var t := WorkerIsTold(cfg, s, n, w);
    assert CanCheck(t, 0) && Races(t.conns[0]);
    Next(cfg, t, CheckPaused(0));
    r := DidCheck(t, 0);
    assert t.conns[0].needy - {0} == {};
  }

  lemma WorkerIsTold(cfg: Config, s: State, n: MsgId, w: int) returns (r: State)
    requires Reachable(cfg, s) && WorkerGivesSlot(cfg, s, n) && w >= 1
    requires s.conns[0].flow == Flow(w, w, true, false) && s.conns[0].needy == {}
    ensures Reachable(cfg, r) && 0 in r.conns && n in r.msgs && r.msgs[n].conn == 0
    ensures var x := s.conns[0];
      r.conns[0] == x.(flow := Flow(w, w - 1, false, true), slots := x.slots - {n}, needy := {0})
    ensures 0 in r.rt.workers && r.rt.workers[0] == RT.Checking(n, true)
    ensures InService(r)
  {
    assert CanFinishOne(s, 0);
    Next(cfg, s, FinishOne(0));
    r := DidFinishOne(s, 0);
  }

  const GO_ON := [Unpause, CutMessage, NoSlot]

  /** The reactor goes on, finds a resume still owed, puts the message back and stops. */
  lemma ReactorStops(x: Conn)
    requires x.connected && x.at.MidResume? && x.paused && x.flow.resumePending && x.buffer == SendPreview(DB_TEXT)
    ensures CanAll(x, GO_ON) && DoAll(x, GO_ON) == x.(paused := false, pausedFor := None, at := Out)
  {
    FrameIsCut(DB_TEXT, "");
    assert x.buffer + "" == x.buffer;
    var x1 := Do(x, Unpause);
    var x2 := Do(x1, CutMessage);
    assert x2.at == Have(DB_TEXT) && x2.buffer == "";
    assert GO_ON[1..][1..] == [NoSlot] && CanAll(x2, [NoSlot]);
    assert GO_ON[1..] == [CutMessage, NoSlot] && CanAll(x1, GO_ON[1..]) && DoAll(x1, GO_ON[1..]) == Do(x2, NoSlot);
  }

  lemma AdmissionGoesOn(cfg: Config, s: State)
    requires cfg.window >= 1 && Reachable(cfg, s) && InService(s)
    ensures AdmissionWorks(s)
  {
    ReachableInv(cfg, s);
    ForfeitsHoldCredits(s);
  }

  /** The reactor is between the two halves of `process_pending_resume`, the worker before `finish_one`. */
  predicate BetweenTheHalves(x: Conn, w: int) {
    && x.connected && x.paused && x.at == MidResume(false) && x.flow == Flow(w, w, true, false)
    && !InBuckets(x) && x.parked == {} && x.needy == {} && x.buffer == SendPreview(DB_TEXT) && x.dropped == {}
  }

  lemma ReactorIsBetween(cfg: Config, s: State, n: MsgId) returns (r: State)
    requires Reachable(cfg, s) && WorkerGivesSlot(cfg, s, n) && ResumeCameFirst(s.conns[0], cfg.window)
    ensures Reachable(cfg, r) && WorkerGivesSlot(cfg, r, n) && BetweenTheHalves(r.conns[0], cfg.window)
  {
    ReactorConsumes(s.conns[0], cfg.window);
    ReactorStretch(cfg, s, 0, PAUSE_AND_RESUME);
    r := SetConn(s, 0, DoAll(s.conns[0], PAUSE_AND_RESUME));
  }

  lemma RacersAreReady(cfg: Config, n: MsgId) returns (s: State)
    requires IsSample(cfg) && n == cfg.limit + (cfg.window - 1)
    ensures Reachable(cfg, s) && WorkerGivesSlot(cfg, s, n) && BetweenTheHalves(s.conns[0], cfg.window)
  {
    var t := LastCreditForDrain(cfg, cfg.window - 1);
    var u := MessageIsServed(cfg, t, cfg.window - 1, n);
    s := ReactorIsBetween(cfg, u, n);
  }

  /** Connection 0 is stranded, and nothing has been closed. */
  ghost predicate StrandedByRace(s: State) {
    && Stranded(s, 0) && DeafAt(s, 0) && s.conns[0].raced && !PausedInVain(s, 0)
    && AdmissionWorks(s) && !s.rt.workClosed
  }

  /** Whatever the window, the number of credits and the rest of the configuration, the race can strand a connection
      of a server that is not shutting down. */
  lemma RaceStrands(cfg: Config)
    requires IsSample(cfg)
    ensures exists s :: Reachable(cfg, s) && StrandedByRace(s)
  {
    var n := cfg.limit + (cfg.window - 1);
    var s1 := RacersAreReady(cfg, n);
    var s2 := WorkerRaces(cfg, s1, n, cfg.window);
    ReactorStops(s2.conns[0]);
    ReactorStretch(cfg, s2, 0, GO_ON);
    var s := SetConn(s2, 0, DoAll(s2.conns[0], GO_ON));
    FrameIsReady(s.conns[0]);
    NobodyIsDue(cfg, s, 0);
    AdmissionGoesOn(cfg, s);
  }
}
