/** Connections that are left behind by a server that shuts down, played out: the parse pool is closed while the drain
    thread holds a message, which it then drops without scheduling a resume; and the gate is closed while a message
    waits for a credit. */
module DropRun {
  import opened FlowWindow
  import opened CreditGate
  import opened Wrappers
  import opened ReaderControl
  import opened Pipeline
  import opened PipelineTheorems
  import opened Forfeits
  import opened StuckConnections
  import opened Scenario
  import opened BusyServer

  lemma PoolIsClosed(cfg: Config, s: State)
    requires Reachable(cfg, s)
    ensures Reachable(cfg, s.(divideClosed := true))
  {
    Next(cfg, s, CloseDivide);
  }

  lemma MessageIsDropped(cfg: Config, s: State, n: MsgId) returns (r: State)
    requires Reachable(cfg, s) && s.drain == DrainMayPost(n) && s.divideClosed
    requires n in s.msgs && s.msgs[n].conn == 0 && 0 in s.conns
    ensures Reachable(cfg, r) && r.conns == s.conns[0 := DroppedOne(s.conns[0], n)]
  {
    Next(cfg, s, DrainPostClosed);
    r := DidDrainPostClosed(s);
  }

  /** Connection 0, with one message under way, is deaf since it was paused in vain. */
  ghost predicate LeftBehind(s: State) {
    && 0 in s.conns && s.conns[0].connected && s.conns[0].at.Out? && FrameReady(s.conns[0])
    && DeafAt(s, 0) && PausedInVain(s, 0) && !SomeoneWillLook(s, 0)
    && !s.conns[0].raced && s.conns[0].flow.inFlight == 1
  }

  /** Whatever the configuration, a drop can leave a connection with a complete frame and nobody to look at it; with a
      window of more than the dropped message, it is stranded. */
  lemma DropStrands(cfg: Config)
    requires IsSample(cfg)
    ensures exists s :: Reachable(cfg, s) && LeftBehind(s) && s.conns[0].dropped != {}
                        && (Stranded(s, 0) <==> cfg.window > 1)
  {
    var n := cfg.limit;
    var s0 := LastCreditForDrain(cfg, 0);
    ReactorPauses(cfg, s0, 0, n, 1);
    var s1 := SetConn(s0, 0, LeftPaused(s0.conns[0], n));
    PoolIsClosed(cfg, s1);
    var s := MessageIsDropped(cfg, s1.(divideClosed := true), n);
    assert {n} - {n} == {};
    FrameIsReady(s.conns[0]);
    assert n in s.conns[0].dropped;
    NobodyIsDue(cfg, s, 0);
  }

  lemma GateIsClosed(cfg: Config, s: State)
    requires Reachable(cfg, s)
    ensures Reachable(cfg, s.(gate := s.gate.(closed := true)))
  {
    Next(cfg, s, CloseGate);
  }

  lemma WaitsAtTheGate(cfg: Config, n: MsgId) returns (s: State)
    requires IsSample(cfg) && n == cfg.limit
    ensures Reachable(cfg, s) && s.drain.DrainIdle? && !s.divideClosed && !s.waitStopped && s.window == cfg.window
    ensures n in s.msgs && 0 in s.conns && JustParked(s.conns[0], n, cfg.window, 1)
  {
    var t, u := CreditsAreSpent(cfg, 0);
    s := WaitsForCredit(cfg, t, 0, n, 0);
  }

  /** Nor does it take a drop: with the gate closed, a waiting message stays where it is. */
  lemma ClosedGateStrands(cfg: Config)
    requires IsSample(cfg)
    ensures exists s :: Reachable(cfg, s) && LeftBehind(s) && s.conns[0].dropped == {} && !s.divideClosed
                        && (Stranded(s, 0) <==> cfg.window > 1)
  {
    var n := cfg.limit;
    var s0 := WaitsAtTheGate(cfg, n);
    ReactorPauses(cfg, s0, 0, n, 1);
    var s1 := SetConn(s0, 0, LeftPaused(s0.conns[0], n));
    GateIsClosed(cfg, s1);
    var s := s1.(gate := s1.gate.(closed := true));
    assert n in Hopeless(s);
    FrameIsReady(s.conns[0]);
    NobodyIsDue(cfg, s, 0);
  }
}
