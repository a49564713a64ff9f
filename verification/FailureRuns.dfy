/** What failed parses cost, played out on a server of any size. */
module FailureRuns {
  import opened FlowWindow
  import opened CreditGate
  import opened Wrappers
  import opened ReaderControl
  import opened Pipeline
  import opened PipelineTheorems
  import opened Forfeits
  import opened StuckConnections
  import opened Scenario
  import opened BusyServer

  /** n DB messages, of n connections, have been lost in failed parses. */
  predicate GateLosses(cfg: Config, s: State, n: nat) {
    && Calm(s, n) && s.window == cfg.window && s.gate == Gate(cfg.limit, cfg.limit - n, false)
    && (forall c :: c in s.conns ==> c < n)
    && (forall m: nat :: m < n ==> m in s.msgs && s.msgs[m].db && s.msgs[m].stage.ParseFailed?)
  }

  lemma OneMoreIsLost(cfg: Config, s: State, n: nat) returns (r: State)
    requires IsSample(cfg) && Reachable(cfg, s) && GateLosses(cfg, s, n) && n < cfg.limit
    ensures Reachable(cfg, r) && GateLosses(cfg, r, n + 1)
  {
    var t := NewcomerIsAdmitted(cfg, s, n, n);
    r := FailsToParse(cfg, t, n, n);
  }

  lemma {:induction false} ManyAreLost(cfg: Config, n: nat) returns (s: State)
    requires IsSample(cfg) && n <= cfg.limit
    ensures Reachable(cfg, s) && GateLosses(cfg, s, n)
  {
    if n == 0 {
      StartIsReachable(cfg);
      s := NewState(cfg);
    } else {
      var t := ManyAreLost(cfg, n - 1);
      s := OneMoreIsLost(cfg, t, n - 1);
    }
  }

  function Below(n: nat): (r: set<nat>)
    ensures |r| == n && forall m: nat :: m in r <==> m < n
  {
    if n == 0 then {} else Below(n - 1) + {n - 1}
  }

  /** With as many failed parses as credits, the gate is open, nobody uses it, and no DB message passes. */
  lemma FailuresDrainTheGate(cfg: Config)
    requires IsSample(cfg)
    ensures exists s :: Reachable(cfg, s) && !s.gate.closed && CreditHolders(s) == FailedDb(s)
                        && |FailedDb(s)| == cfg.limit && !CanAcquire(s.gate)
  {
    var s := ManyAreLost(cfg, cfg.limit);
    assert FailedDb(s) == Below(cfg.limit);
    assert CreditHolders(s) == FailedDb(s);
    assert Reachable(cfg, s) && !CanAcquire(s.gate);
  }

  /** Connection c was paused for a message that waits for a credit, in a server that nobody has begun to shut down; but
      all credits went with failed parses. */
  ghost predicate StarvedForGood(s: State, c: ConnId) {
    && c in s.conns && s.conns[c].connected && s.conns[c].at.Out? && FrameReady(s.conns[c])
    && DeafAt(s, c) && PausedInVain(s, c) && !SomeoneWillLook(s, c)
    && !s.conns[c].raced && s.conns[c].dropped == {} && s.conns[c].flow.inFlight == 1
    && !s.gate.closed && !s.divideClosed && !s.waitStopped && s.drain.DrainIdle? && !s.rt.workClosed
  }

  lemma WaitsAtDrainedGate(cfg: Config, n: MsgId) returns (s: State)
    requires IsSample(cfg) && n == cfg.limit
    ensures Reachable(cfg, s) && n in s.conns && JustParked(s.conns[n], n, cfg.window, 1) && s.window == cfg.window
    ensures !s.gate.closed && !s.divideClosed && !s.waitStopped && s.drain.DrainIdle? && !s.rt.workClosed
    ensures n in s.msgs && |Forfeited(s)| >= s.gate.limit
  {
    var s0 := ManyAreLost(cfg, n);
    var x := NewcomerReads(cfg, s0, n);
    var s1 := SetConn(s0, n, x);
    s := WaitsForCredit(cfg, s1, n, n, 0);
    AllForfeited(s, n);
  }

  lemma AllForfeited(s: State, n: nat)
    requires forall m: nat :: m < n ==> m in s.msgs && s.msgs[m].db && s.msgs[m].stage.ParseFailed?
    ensures |Forfeited(s)| >= n
  {
    assert Below(n) <= Forfeited(s);
    NoRoomForMore(Below(n), Forfeited(s));
  }

  /** Nothing closed, nothing raced, nothing dropped: with as many failed parses as credits, the next DB message pauses
      its connection for good; with a window of more than that message, it is stranded. */
  lemma FailuresStrand(cfg: Config)
    requires IsSample(cfg)
    ensures exists s, c :: Reachable(cfg, s) && StarvedForGood(s, c) && (Stranded(s, c) <==> cfg.window > 1)
  {
    var n := cfg.limit;
    var s0 := WaitsAtDrainedGate(cfg, n);
    ReactorPauses(cfg, s0, n, n, 1);
    var s := SetConn(s0, n, LeftPaused(s0.conns[n], n));
    assert Forfeited(s) == Forfeited(s0);
    assert n in Hopeless(s);
    FrameIsReady(s.conns[n]);
    NobodyIsDue(cfg, s, n);
    assert Reachable(cfg, s) && StarvedForGood(s, n);
  }

  /** n fast messages of connection 0 have been lost in failed parses. */
  predicate WindowLosses(cfg: Config, s: State, n: nat) {
    && Calm(s, n) && s.window == cfg.window && 0 in s.conns && Ready(s.conns[0], cfg.window, n)
    && (forall m: nat :: m < n ==> m in s.msgs && s.msgs[m].conn == 0 && s.msgs[m].stage.ParseFailed?)
  }

  lemma OneMoreOfItsOwn(cfg: Config, s: State, n: nat) returns (r: State)
    requires IsSample(cfg) && Reachable(cfg, s) && WindowLosses(cfg, s, n) && n < cfg.window
    ensures Reachable(cfg, r) && WindowLosses(cfg, r, n + 1)
  {
    var t := OwnIsAdmitted(cfg, s, n, n);
    r := FailsToParse(cfg, t, 0, n);
  }

  lemma {:induction false} ManyOfItsOwn(cfg: Config, n: nat) returns (s: State)
    requires IsSample(cfg) && n <= cfg.window
    ensures Reachable(cfg, s) && WindowLosses(cfg, s, n)
  {
    if n == 0 {
      s := NobodyYet(cfg);
    } else {
      var t := ManyOfItsOwn(cfg, n - 1);
      s := OneMoreOfItsOwn(cfg, t, n - 1);
    }
  }

  /** With as many failed parses as slots, a connection is shut out: its window is full of lost messages, in a server
      that is not shutting down. */
  lemma FailuresFillTheWindow(cfg: Config)
    requires IsSample(cfg)
    ensures exists s :: Reachable(cfg, s) && 0 in s.conns && s.conns[0].connected && s.conns[0].flow.full
                        && SlotHolders(s, 0) == LostOf(s, 0) && |LostOf(s, 0)| == cfg.window && !s.divideClosed
  {
    var s := ManyOfItsOwn(cfg, cfg.window);
    assert LostOf(s, 0) == Below(cfg.window);
    assert SlotHolders(s, 0) == LostOf(s, 0);
    assert Reachable(cfg, s) && s.conns[0].flow.full;
  }
}
