/** Connections that are never left behind - and the ways in which one is, for good: a resume lost in the race, a
    message dropped by the drain thread, and a message that waits for a DB credit or a drain thread that will never
    come. */
module StuckConnections {
  import opened FlowWindow
  import opened CreditGate
  import opened Wrappers
  import opened ReaderControl
  import opened Deafness
  import opened Pipeline
  import opened PipelineProofs
  import opened PipelineTheorems
  import opened Forfeits
  import RT = CoroutineRuntime

  // ---------------------------------------------------------------- who may still look at a connection

  /** A message of c is with the DB side, and can still be posted; its resume comes with it. */
  ghost predicate DbWillResume(s: State, c: ConnId) {
    exists m :: m in s.msgs && s.msgs[m].conn == c && WaitsForResume(s.msgs[m], m, s.drain) && Servable(s, m)
  }

  /** A worker was told by `finish_one` to resume c and has not looked at `reading_paused` yet. */
  ghost predicate CheckIsDue(s: State, c: ConnId) {
    exists w :: NeedsResume(s.rt.workers, w) && s.rt.workers[w].flow in s.msgs && s.msgs[s.rt.workers[w].flow].conn == c
  }

  /** Its reactor will; the drain thread will see to it; or a worker will, unless reading is paused. */
  ghost predicate SomeoneWillLook(s: State, c: ConnId)
    requires c in s.conns
  {
    InBuckets(s.conns[c]) || DbWillResume(s, c) || (!s.conns[c].paused && CheckIsDue(s, c))
  }

  lemma WakeSources(s: State, c: ConnId)
    requires ParkedInv(s.conns, s.msgs, s.drain) && NeedyInv(s.conns, s.msgs, s.rt.workers) && c in s.conns
    ensures DbWillResume(s, c) <==> !(s.conns[c].parked <= Hopeless(s))
    ensures CheckIsDue(s, c) <==> s.conns[c].needy != {}
  {
    assert ParkedOf(s.conns[c], c, s.msgs, s.drain) && NeedyOf(s.conns[c], c, s.msgs, s.rt.workers);
    if !(s.conns[c].parked <= Hopeless(s)) {
      var m :| m in s.conns[c].parked && m !in Hopeless(s);
    }
    if s.conns[c].needy != {} {
      var w :| w in s.conns[c].needy;
    }
  }

  /** Its reading is paused, or its window waits for a resume. */
  predicate Blocked(x: Conn) {
    x.paused || x.flow.resumePending
  }

  /** Its reading was paused for a message that the drain thread dropped, or will never post. */
  predicate PausedInVain(s: State, c: ConnId)
    requires c in s.conns
  {
    var x := s.conns[c];
    x.pausedFor.Some? && (x.pausedFor.value in x.dropped
                          || (x.pausedFor.value in x.parked && !Servable(s, x.pausedFor.value)))
  }

  /** Nobody will ever serve it: see `DeadForGood`. */
  predicate DeafAt(s: State, c: ConnId) {
    c in s.conns && Deaf(s.conns[c], Hopeless(s))
  }

  /** A complete frame waits, the window has room, and nobody is going to look. */
  ghost predicate Stranded(s: State, c: ConnId) {
    && c in s.conns && s.conns[c].connected && s.conns[c].at.Out? && FrameReady(s.conns[c])
    && s.conns[c].flow.inFlight < s.conns[c].flow.window && !SomeoneWillLook(s, c)
  }

  lemma NobodyIsDue(cfg: Config, s: State, c: ConnId)
    requires cfg.window >= 1 && Reachable(cfg, s) && c in s.conns
    requires !InBuckets(s.conns[c]) && s.conns[c].parked <= Hopeless(s)
    requires s.conns[c].paused || s.conns[c].needy == {}
    ensures !SomeoneWillLook(s, c) && s.conns[c].flow.window == cfg.window
  {
    ReachableInv(cfg, s);
    WakeSources(s, c);
  }

  // ---------------------------------------------------------------- never stranded, and why

  lemma CausesOf(s: State, c: ConnId)
    requires Inv(s) && c in s.conns && s.conns[c].connected && !SomeoneWillLook(s, c)
    requires s.conns[c].at.Out? || s.conns[c].at.Top?
    ensures Blocked(s.conns[c]) <==> s.conns[c].raced || PausedInVain(s, c)
    ensures Blocked(s.conns[c]) <==> DeafAt(s, c)
  {
    WakeSources(s, c);
    assert ConnInv(s.conns[c]);
  }

  /** In every reachable state, of a connected connection outside `handle_read` with a complete frame in its buffer at
      which nobody will look again: it is blocked - paused, or waiting for a resume - exactly if a resume of it was lost
      in the race, or its reading was paused for a message that was dropped or will never be posted; and then it is deaf
      for good.  If it is not blocked, its window is full and the next message of it to end is told to resume it.  So a
      connection with room in its window is left behind from these causes alone. */
  lemma NeverStranded(cfg: Config, s: State, c: ConnId)
    requires cfg.window >= 1 && Reachable(cfg, s)
    requires c in s.conns && s.conns[c].connected && s.conns[c].at.Out? && FrameReady(s.conns[c])
    requires !SomeoneWillLook(s, c)
    ensures Blocked(s.conns[c]) <==> s.conns[c].raced || PausedInVain(s, c)
    ensures Blocked(s.conns[c]) <==> DeafAt(s, c)
    ensures !Blocked(s.conns[c]) ==>
      s.conns[c].flow.inFlight == cfg.window && Finishing(s.conns[c].flow).yes
  {
    ReachableInv(cfg, s);
    CausesOf(s, c);
    assert ConnInv(s.conns[c]);
  }

  /** Reading that is paused will be taken up again - unless nobody will see to it, which makes the connection deaf, and
      happens exactly if no bucket has the connection and no message of it can still be posted; it was then paused in
      vain. */
  lemma PauseHasAnEnd(cfg: Config, s: State, c: ConnId)
    requires cfg.window >= 1 && Reachable(cfg, s)
    requires c in s.conns && s.conns[c].connected && s.conns[c].paused && !MidStep(s.conns[c].at)
    ensures DeafAt(s, c) <==> !InBuckets(s.conns[c]) && !DbWillResume(s, c)
    ensures DeafAt(s, c) ==> PausedInVain(s, c)
  {
    ReachableInv(cfg, s);
    WakeSources(s, c);
    assert ConnInv(s.conns[c]);
    if DeafAt(s, c) {
      assert !SomeoneWillLook(s, c);
    }
  }

  // ---------------------------------------------------------------- runs without a cause

  /** The check of worker w falls between the two halves of `process_pending_resume` or `process_divide_retry`, which
      has already consumed the previous resume. */
  predicate RaceAt(s: State, e: Event) {
    && e.CheckPaused? && CanCheck(s, e.w) && s.rt.workers[e.w].needResume
    && Races(s.conns[s.msgs[s.rt.workers[e.w].flow].conn])
  }

  /** The drain thread finds the parse pool closed and drops a message of c. */
  predicate DropAt(s: State, e: Event, c: ConnId) {
    e.DrainPostClosed? && CanDrainPost(s) && s.msgs[s.drain.m].conn == c
  }

  /** A run in which checks never race - both functions are as good as atomic - and no message of c is dropped by the
      drain thread. */
  ghost predicate Undisturbed(s: State, events: seq<Event>, c: ConnId)
    requires Possible(s, events)
    decreases |events|
  {
    events == []
    || (!RaceAt(s, events[0]) && !DropAt(s, events[0], c) && Undisturbed(Step(s, events[0]), events[1..], c))
  }

  ghost predicate Unraced(s: State) {
    forall c :: c in s.conns ==> !s.conns[c].raced
  }

  predicate Undropped(s: State, c: ConnId) {
    c in s.conns ==> s.conns[c].dropped == {}
  }

  lemma {:induction false} UndisturbedStays(s: State, events: seq<Event>, c: ConnId)
    requires Inv(s) && Unraced(s) && Undropped(s, c) && Possible(s, events) && Undisturbed(s, events, c)
    ensures Unraced(Run(s, events)) && Undropped(Run(s, events), c)
    decreases |events|
  {
    if events != [] {
      UnracedStep(s, events[0]);
      UndroppedStep(s, events[0], c);
      StepKeeps(s, events[0]);
      UndisturbedStays(Step(s, events[0]), events[1..], c);
    }
  }

  lemma UndroppedStep(s: State, e: Event, c: ConnId)
    requires HandInv(s.conns, s.msgs) && Undropped(s, c) && Enabled(s, e) && !DropAt(s, e, c)
    ensures Undropped(Step(s, e), c)
  {
    if AtReactor(e) {
      UndroppedAtReactor(s, e, c);
    } else if e.DrainSchedule? || e.DrainPostClosed? || e.FinishOne? || e.CheckPaused? {
      UndroppedAtPools(s, e, c);
    } else {
      ConnsElsewhere(s, e);
    }
  }

  lemma UndroppedAtReactor(s: State, e: Event, c: ConnId)
    requires HandInv(s.conns, s.msgs) && Undropped(s, c) && ReactorEnabled(s, e)
    ensures Undropped(ReactorEffect(s, e), c)
  {
    if e.Reactor? {
      assert AtInv(s.conns[e.c].at, e.c, s.msgs);
      ReactorStepFrame(s.conns[e.c], e.r, e.c, s.msgs);
    }
  }

  lemma UndroppedAtPools(s: State, e: Event, c: ConnId)
    requires Undropped(s, c) && !AtReactor(e) && PoolEnabled(s, e) && !DropAt(s, e, c)
    requires e.DrainSchedule? || e.DrainPostClosed? || e.FinishOne? || e.CheckPaused?
    ensures Undropped(PoolEffect(s, e), c)
  {
    if e.CheckPaused? {
      var d := s.msgs[s.rt.workers[e.w].flow].conn;
      CheckFrame(s.conns[d], e.w, s.rt.workers[e.w].needResume);
      assert DidCheck(s, e.w).conns == s.conns[d := AfterCheck(s.conns[d], e.w, s.rt.workers[e.w].needResume)];
    }
  }

  lemma UnracedStep(s: State, e: Event)
    requires HandInv(s.conns, s.msgs) && Unraced(s) && Enabled(s, e) && !RaceAt(s, e)
    ensures Unraced(Step(s, e))
  {
    if AtReactor(e) {
      UnracedReactorStep(s, e);
    } else if e.DrainSchedule? || e.DrainPostClosed? {
      FrameDrainEnd(s, e);
    } else if e.FinishOne? {
      UnracedFinishOne(s, e.w);
    } else if e.CheckPaused? {
      UnracedCheck(s, e.w);
    } else {
      ConnsElsewhere(s, e);
    }
  }

  lemma UnracedReactorStep(s: State, e: Event)
    requires HandInv(s.conns, s.msgs) && Unraced(s) && ReactorEnabled(s, e)
    ensures Unraced(ReactorEffect(s, e))
  {
    if e.Open? {
    } else if e.Reactor? {
      assert AtInv(s.conns[e.c].at, e.c, s.msgs);
      ReactorStepFrame(s.conns[e.c], e.r, e.c, s.msgs);
    } else if e.TakeSlot? || e.AdmitFast? || e.Starve? {
      FrameFirst(s, e);
    } else {
      FrameHand(s, e);
    }
  }

  lemma UnracedFinishOne(s: State, w: Thread)
    requires Unraced(s) && CanFinishOne(s, w)
    ensures Unraced(DidFinishOne(s, w))
  {
  }

  lemma UnracedCheck(s: State, w: Thread)
    requires Unraced(s) && CanCheck(s, w) && !RaceAt(s, CheckPaused(w))
    ensures Unraced(DidCheck(s, w))
  {
  }

  /** DB admission works: nothing it needs has been closed, the drain thread runs, and a credit can still come. */
  predicate AdmissionWorks(s: State) {
    AdmissionIsUp(s) && !s.waitStopped && !s.drain.DrainExited?
  }

  lemma AllAreServable(s: State, m: MsgId)
    requires AdmissionWorks(s) && m in s.msgs && WaitsForResume(s.msgs[m], m, s.drain)
    ensures Servable(s, m)
  {
  }

  /** In a run without races, while DB admission works, a connection none of whose messages the drain thread dropped is
      never stranded. */
  lemma NeverStrandedUndisturbed(cfg: Config, events: seq<Event>, c: ConnId)
    requires cfg.window >= 1 && Possible(NewState(cfg), events) && Undisturbed(NewState(cfg), events, c)
    requires var s := Run(NewState(cfg), events);
      && c in s.conns && s.conns[c].connected && s.conns[c].at.Out? && FrameReady(s.conns[c])
      && AdmissionWorks(s)
    ensures var s := Run(NewState(cfg), events);
      SomeoneWillLook(s, c) || (s.conns[c].flow.inFlight == cfg.window && Finishing(s.conns[c].flow).yes)
  {
    var s := Run(NewState(cfg), events);
    ReachableByRuns(cfg, s);
    StartKeeps(cfg);
    UndisturbedStays(NewState(cfg), events, c);
    if !SomeoneWillLook(s, c) {
      ReachableInv(cfg, s);
      NoVainPause(s, c);
      NeverStranded(cfg, s, c);
    }
  }

  lemma NoVainPause(s: State, c: ConnId)
    requires ParkedInv(s.conns, s.msgs, s.drain) && AdmissionWorks(s) && Undropped(s, c) && c in s.conns
    ensures !PausedInVain(s, c)
  {
    assert ParkedOf(s.conns[c], c, s.msgs, s.drain);
    if s.conns[c].pausedFor.Some? && s.conns[c].pausedFor.value in s.conns[c].parked {
      AllAreServable(s, s.conns[c].pausedFor.value);
    }
  }

  // ---------------------------------------------------------------- deaf for good

  predicate SameMessagesOf(s: State, r: State, c: ConnId) {
    forall m :: m in r.msgs && r.msgs[m].conn == c ==> m in s.msgs && s.msgs[m].conn == c
  }

  /** After a step the connection is as deaf as before, to the same messages or fewer. */
  predicate AsDeaf(s: State, r: State, c: ConnId) {
    && c in s.conns && c in r.conns && Deaf(r.conns[c], Hopeless(s)) && r.conns[c].parked <= s.conns[c].parked
    && SameMessagesOf(s, r, c)
  }

  /** It takes only reading steps of its own. */
  lemma DeafReactorStep(s: State, e: Event, c: ConnId)
    requires AtReactor(e) && ReactorEnabled(s, e) && DeafAt(s, c)
    ensures AsDeaf(s, ReactorEffect(s, e), c)
  {
    if e.Reactor? && e.c == c {
      DeafToItself(s.conns[c], e.r, Hopeless(s));
      OwnStepParksNothing(s.conns[c], e.r);
    } else if e.Open? || e.Reactor? || e.TakeSlot? || e.AdmitFast? || e.Starve? {
      assert e.c != c;
    } else {
      assert e.c != c;
      FrameHand(s, e);
      ReactorElsewhere(s, e, c);
    }
  }

  lemma ReactorElsewhere(s: State, e: Event, c: ConnId)
    requires AtReactor(e) && ReactorEnabled(s, e) && !e.Open? && !e.TakeSlot? && e.c != c && c in s.conns
    ensures var r := ReactorEffect(s, e); c in r.conns && r.conns[c] == s.conns[c] && r.msgs.Keys == s.msgs.Keys
  {
    if e.Reactor? || e.AdmitFast? || e.Starve? {
      ConnElsewhere(s, e, c);
    } else if e.AdmitDb? || e.AddWaiting? || e.RefuseWaiting? {
      GateElsewhere(s, e, c);
    } else {
      DispatchElsewhere(s, e, c);
    }
  }

  lemma ConnElsewhere(s: State, e: Event, c: ConnId)
    requires AtReactor(e) && ReactorEnabled(s, e) && (e.Reactor? || e.AdmitFast? || e.Starve?)
    requires e.c != c && c in s.conns
    ensures var r := ReactorEffect(s, e); c in r.conns && r.conns[c] == s.conns[c] && r.msgs.Keys == s.msgs.Keys
  {
  }

  lemma GateElsewhere(s: State, e: Event, c: ConnId)
    requires AtReactor(e) && ReactorEnabled(s, e) && (e.AdmitDb? || e.AddWaiting? || e.RefuseWaiting?)
    requires e.c != c && c in s.conns
    ensures var r := ReactorEffect(s, e); c in r.conns && r.conns[c] == s.conns[c] && r.msgs.Keys == s.msgs.Keys
  {
  }

  lemma DispatchElsewhere(s: State, e: Event, c: ConnId)
    requires AtReactor(e) && ReactorEnabled(s, e)
    requires e.DispatchOk? || e.DispatchFull? || e.DispatchClosed? || e.GiveBack?
    requires e.c != c && c in s.conns
    ensures var r := ReactorEffect(s, e); c in r.conns && r.conns[c] == s.conns[c] && r.msgs.Keys == s.msgs.Keys
  {
  }

  /** The drain thread schedules no resume for it; it may drop a message of it. */
  lemma DeafDrainStep(s: State, e: Event, c: ConnId)
    requires ParkedInv(s.conns, s.msgs, s.drain) && QueueEnabled(s, e) && (e.DrainSchedule? || e.DrainPostClosed?)
    requires DeafAt(s, c)
    ensures AsDeaf(s, QueueEffect(s, e), c)
  {
    assert ParkedOf(s.conns[c], c, s.msgs, s.drain);
    if s.msgs[s.drain.m].conn == c {
      assert s.drain.m in s.conns[c].parked && s.drain.m in Hopeless(s);
      assert e.DrainPostClosed?;
      DeafToOthers(s.conns[c], Drop(s.drain.m), Hopeless(s));
    }
  }

  /** A worker that ends a message of it, or was told to resume it, does nothing that helps. */
  lemma DeafFinish(s: State, w: Thread, c: ConnId)
    requires SlotInv(s.conns, s.msgs) && WorkInv(s.msgs, s.rt.place, s.rt.workers) && CanFinishOne(s, w) && DeafAt(s, c)
    ensures AsDeaf(s, DidFinishOne(s, w), c)
  {
    FinisherHasSlot(s, w);
    var m := s.rt.workers[w].flow;
    if s.msgs[m].conn == c {
      DeafToOthers(s.conns[c], Move.Finish(m, w), Hopeless(s));
      FinishParksNothing(s.conns[c], m, w);
    }
    FinishesAt(s, w, c);
  }

  lemma FinishesAt(s: State, w: Thread, c: ConnId)
    requires CanFinishOne(s, w) && c in s.conns
    ensures var m, r := s.rt.workers[w].flow, DidFinishOne(s, w);
      && c in r.conns && SameMessagesOf(s, r, c)
      && r.conns[c] == if s.msgs[m].conn == c then Finished(s.conns[c], m, w) else s.conns[c]
  {
  }

  lemma FinisherHasSlot(s: State, w: Thread)
    requires SlotInv(s.conns, s.msgs) && WorkInv(s.msgs, s.rt.place, s.rt.workers) && CanFinishOne(s, w)
    ensures s.conns[s.msgs[s.rt.workers[w].flow].conn].flow.inFlight > 0
  {
    var m := s.rt.workers[w].flow;
    assert SlotsOf(s.conns[s.msgs[m].conn], s.msgs[m].conn, s.msgs);
    assert m in s.conns[s.msgs[m].conn].slots;
  }

  lemma DeafCheck(s: State, w: Thread, c: ConnId)
    requires NeedyInv(s.conns, s.msgs, s.rt.workers) && CanCheck(s, w) && DeafAt(s, c)
    ensures AsDeaf(s, DidCheck(s, w), c)
  {
    assert NeedyOf(s.conns[c], c, s.msgs, s.rt.workers);
    if s.rt.workers[w].needResume && s.msgs[s.rt.workers[w].flow].conn == c {
      assert w in s.conns[c].needy;
      DeafToOthers(s.conns[c], Check(w), Hopeless(s));
    }
  }

  lemma DeafPoolStep(s: State, e: Event, c: ConnId)
    requires Inv(s) && !AtReactor(e) && PoolEnabled(s, e) && DeafAt(s, c)
    ensures AsDeaf(s, PoolEffect(s, e), c)
  {
    if e.DrainSchedule? || e.DrainPostClosed? {
      DeafDrainStep(s, e, c);
    } else if e.FinishOne? {
      DeafFinish(s, e.w, c);
    } else if e.CheckPaused? {
      DeafCheck(s, e.w, c);
    } else {
      ConnsElsewhere(s, e);
      MessagesElsewhere(s, e, c);
    }
  }

  lemma Unmoved(s: State, r: State, c: ConnId)
    requires r.msgs.Keys == s.msgs.Keys && OnlyStages(s.msgs, r.msgs)
    ensures SameMessagesOf(s, r, c)
  {
  }

  lemma MessagesElsewhere(s: State, e: Event, c: ConnId)
    requires !AtReactor(e) && PoolEnabled(s, e)
    requires !e.DrainSchedule? && !e.DrainPostClosed? && !e.FinishOne? && !e.CheckPaused?
    ensures SameMessagesOf(s, PoolEffect(s, e), c)
  {
    if e.DrainPop? || e.DrainAcquire? || e.DrainGateClosed? || e.DrainPost? || e.ParsePop? {
      FrameDrainMove(s, e);
      Unmoved(s, PoolEffect(s, e), c);
    } else if e.ParseOk? || e.ParseDropped? || e.ParseThrow? {
      FrameParse(s, e);
      Unmoved(s, PoolEffect(s, e), c);
    } else if !e.Work? && !e.ReturnCredit? {
      FrameClosing(s, e);
    }
  }

  lemma DeafStep(s: State, e: Event, c: ConnId)
    requires Inv(s) && Enabled(s, e) && DeafAt(s, c)
    ensures DeafAt(Step(s, e), c) && SameMessagesOf(s, Step(s, e), c)
  {
    if AtReactor(e) {
      DeafReactorStep(s, e, c);
    } else {
      DeafPoolStep(s, e, c);
    }
    StepKeeps(s, e);
    ParkedStayHopeless(s, e, c);
  }

  lemma ParkedStayHopeless(s: State, e: Event, c: ConnId)
    requires Inv(s) && Enabled(s, e) && DeafAt(s, c) && AsDeaf(s, Step(s, e), c)
    requires ParkedInv(Step(s, e).conns, Step(s, e).msgs, Step(s, e).drain)
    ensures Step(s, e).conns[c].parked <= Hopeless(Step(s, e))
  {
    var r := Step(s, e);
    forall m | m in r.conns[c].parked ensures m in Hopeless(r) {
      assert ParkedOf(s.conns[c], c, s.msgs, s.drain) && ParkedOf(r.conns[c], c, r.msgs, r.drain);
      HopelessStays(s, e, m);
    }
  }

  /** A deaf connection - one that lost a resume in the race, or was paused for a message that was dropped or will never
      be posted, with nobody else due - never takes up another message, whatever the server does from then on. */
  lemma {:induction false} DeadForGood(s: State, events: seq<Event>, c: ConnId)
    requires Inv(s) && Possible(s, events) && DeafAt(s, c)
    ensures DeafAt(Run(s, events), c) && SameMessagesOf(s, Run(s, events), c)
    decreases |events|
  {
    if events != [] {
      DeafStep(s, events[0], c);
      StepKeeps(s, events[0]);
      DeadForGood(Step(s, events[0]), events[1..], c);
    }
  }

  /** As many forfeited credits as the gate has: DB messages that wait stay where they are, for good, and with them the
      connections whose reading was paused for them. */
  lemma {:induction false} NoCreditForGood(s: State, events: seq<Event>)
    requires Inv(s) && Possible(s, events) && |Forfeited(s)| >= s.gate.limit
    ensures !CanAcquire(Run(s, events).gate)
    decreases |events|
  {
    ForfeitsHoldCredits(s);
    if events != [] {
      ForfeitedGrows(s, events[0]);
      SettingsStayOnce(s, events[0]);
      StepKeeps(s, events[0]);
      NoCreditForGood(Step(s, events[0]), events[1..]);
    }
  }
}
