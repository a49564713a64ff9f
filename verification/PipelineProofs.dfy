/** Every step of the pipeline keeps its invariant, step by step and ledger by ledger. */
module PipelineProofs {
  import opened Framing
  import opened FlowWindow
  import opened CreditGate
  import opened ReaderControl
  import opened Pipeline
  import opened IdleCount
  import RT = CoroutineRuntime
  import CP = CoroutineProofs

  // ---------------------------------------------------------------- steps that touch one message and its connection

  ghost predicate OnlyConn(conns: map<ConnId, Conn>, conns': map<ConnId, Conn>, c: ConnId) {
    conns'.Keys == conns.Keys && forall d :: d in conns && d != c ==> conns'[d] == conns[d]
  }

  /** Message m of connection c, new or not, is the only one that changes. */
  ghost predicate OnlyMsg(msgs: map<MsgId, Msg>, msgs': map<MsgId, Msg>, m: MsgId, c: ConnId) {
    && msgs'.Keys == msgs.Keys + {m} && msgs'[m].conn == c && (m in msgs ==> msgs[m].conn == c)
    && forall k :: k in msgs && k != m ==> msgs'[k] == msgs[k]
  }

  ghost predicate OnlyDrain(drain: Drain, drain': Drain, m: MsgId) {
    forall k :: k != m ==> WithDrain(drain, k) == WithDrain(drain', k)
  }

  /** What holds of one connection. */
  ghost predicate ConnFacts(s: State, c: ConnId) {
    c in s.conns && SlotsOf(s.conns[c], c, s.msgs) && AtInv(s.conns[c].at, c, s.msgs)
    && ParkedOf(s.conns[c], c, s.msgs, s.drain)
  }

  lemma GetConnFacts(s: State, c: ConnId)
    requires SlotInv(s.conns, s.msgs) && HandInv(s.conns, s.msgs) && ParkedInv(s.conns, s.msgs, s.drain)
    requires c in s.conns
    ensures ConnFacts(s, c)
  {
  }

  /** The step from s to r moves message m of connection c, keeping c's own account of its messages. */
  ghost predicate Touches(s: State, r: State, c: ConnId, m: MsgId) {
    && c in s.conns && OnlyConn(s.conns, r.conns, c) && OnlyMsg(s.msgs, r.msgs, m, c)
    && OnlyDrain(s.drain, r.drain, m)
    && var x, y := s.conns[c], r.conns[c];
       && y.slots == (if HoldsSlot(r.msgs[m]) then x.slots + {m} else x.slots - {m})
       && y.flow.inFlight == |y.slots|
       && y.parked == (if WaitsForResume(r.msgs[m], m, r.drain) then x.parked + {m} else x.parked - {m})
       && AtInv(y.at, c, r.msgs)
  }

  /** It takes a credit for m, gives m's back, or leaves the credits alone. */
  ghost predicate CreditMoves(s: State, r: State, m: MsgId)
    requires m in r.msgs
  {
    var before := m in s.msgs && HoldsCredit(s.msgs[m]);
    var after := HoldsCredit(r.msgs[m]);
    || (before == after && r.credit == s.credit && r.gate == s.gate)
    || (!before && after && CanAcquire(s.gate) && r.credit == s.credit + {m} && r.gate == Acquired(s.gate))
    || (!after && r.credit == ReleaseCredit(s, m).credit && r.gate == ReleaseCredit(s, m).gate)
  }

  lemma OtherSlots(x: Conn, d: ConnId, msgs: map<MsgId, Msg>, msgs': map<MsgId, Msg>, m: MsgId, c: ConnId)
    requires SlotsOf(x, d, msgs) && OnlyMsg(msgs, msgs', m, c) && d != c
    ensures SlotsOf(x, d, msgs')
  {
  }

  lemma OwnSlots(x: Conn, y: Conn, c: ConnId, msgs: map<MsgId, Msg>, msgs': map<MsgId, Msg>, m: MsgId)
    requires SlotsOf(x, c, msgs) && OnlyMsg(msgs, msgs', m, c)
    requires y.slots == (if HoldsSlot(msgs'[m]) then x.slots + {m} else x.slots - {m})
    requires y.flow.inFlight == |y.slots|
    ensures SlotsOf(y, c, msgs')
  {
    forall k ensures k in y.slots <==> k in msgs' && msgs'[k].conn == c && HoldsSlot(msgs'[k]) {
      if k != m {
        assert k in y.slots <==> k in x.slots;
      }
    }
  }

  lemma TouchKeepsSlots(s: State, r: State, c: ConnId, m: MsgId)
    requires SlotInv(s.conns, s.msgs) && Touches(s, r, c, m)
    ensures SlotInv(r.conns, r.msgs)
  {
    forall d | d in r.conns ensures SlotsOf(r.conns[d], d, r.msgs) {
      if d == c {
        OwnSlots(s.conns[c], r.conns[c], c, s.msgs, r.msgs, m);
      } else {
        OtherSlots(s.conns[d], d, s.msgs, r.msgs, m, c);
      }
    }
  }

  lemma TouchKeepsHands(s: State, r: State, c: ConnId, m: MsgId)
    requires HandInv(s.conns, s.msgs) && Touches(s, r, c, m)
    ensures HandInv(r.conns, r.msgs)
  {
  }

  lemma TouchKeepsParked(s: State, r: State, c: ConnId, m: MsgId)
    requires ParkedInv(s.conns, s.msgs, s.drain) && Touches(s, r, c, m)
    ensures ParkedInv(r.conns, r.msgs, r.drain)
  {
  }

  /** A release finds room at the gate: the source's test `available_ < limit_` never turns one away. */
  lemma ReleaseFindsRoom(s: State, m: MsgId)
    requires CreditInv(s.msgs, s.credit, s.gate) && m in s.credit && !s.gate.closed
    ensures s.gate.available < s.gate.limit
  {
    assert s.credit == (s.credit - {m}) + {m};
  }

  lemma TouchKeepsCredit(s: State, r: State, c: ConnId, m: MsgId)
    requires CreditInv(s.msgs, s.credit, s.gate) && OnlyMsg(s.msgs, r.msgs, m, c) && CreditMoves(s, r, m)
    ensures CreditInv(r.msgs, r.credit, r.gate)
  {
    if m in s.credit {
      if !s.gate.closed {
        ReleaseFindsRoom(s, m);
      }
      assert |s.credit - {m}| == |s.credit| - 1;
    }
  }

  lemma TouchTakeSlot(s: State, c: ConnId, m: MsgId)
    requires CanTakeSlot(s, c, m) && ConnFacts(s, c)
    ensures Touches(s, DidTakeSlot(s, c, m), c, m) && CreditMoves(s, DidTakeSlot(s, c, m), m)
  {
  }

  lemma TouchAdmitDb(s: State, c: ConnId)
    requires CanAdmitDb(s, c) && ConnFacts(s, c)
    ensures var m, r := s.conns[c].at.m, DidAdmitDb(s, c); Touches(s, r, c, m) && CreditMoves(s, r, m)
  {
  }

  lemma TouchAddWaiting(s: State, c: ConnId)
    requires CanAddWaiting(s, c) && ConnFacts(s, c)
    ensures var m, r := s.conns[c].at.m, DidAddWaiting(s, c); Touches(s, r, c, m) && CreditMoves(s, r, m)
  {
  }

  lemma TouchRefuseWaiting(s: State, c: ConnId)
    requires CanRefuseWaiting(s, c) && ConnFacts(s, c)
    ensures var m, r := s.conns[c].at.m, DidRefuseWaiting(s, c); Touches(s, r, c, m) && CreditMoves(s, r, m)
  {
  }

  lemma TouchDispatchOk(s: State, c: ConnId)
    requires CanDispatch(s, c) && DivideOpen(s) && ConnFacts(s, c)
    ensures var m, r := s.conns[c].at.m, DidDispatchOk(s, c); Touches(s, r, c, m) && CreditMoves(s, r, m)
  {
  }

  lemma TouchDispatchFull(s: State, c: ConnId)
    requires CanDispatch(s, c) && ConnFacts(s, c)
    ensures var m, r := s.conns[c].at.m, DidDispatchFull(s, c); Touches(s, r, c, m) && CreditMoves(s, r, m)
  {
  }

  lemma TouchDispatchClosed(s: State, c: ConnId)
    requires CanDispatch(s, c) && ConnFacts(s, c)
    ensures var m, r := s.conns[c].at.m, DidDispatchClosed(s, c); Touches(s, r, c, m) && CreditMoves(s, r, m)
  {
  }

  lemma TouchGiveBack(s: State, c: ConnId)
    requires CanGiveBack(s, c) && ConnFacts(s, c)
    ensures var m, r := s.conns[c].at.m, DidGiveBack(s, c); Touches(s, r, c, m) && CreditMoves(s, r, m)
  {
  }

  lemma TouchDrainPop(s: State)
    requires CanDrainPop(s) && QueueInv(s) && ConnFacts(s, s.msgs[s.waiting[s.waitHead]].conn)
    ensures var m, r := s.waiting[s.waitHead], DidDrainPop(s); Touches(s, r, s.msgs[m].conn, m) && CreditMoves(s, r, m)
  {
  }

  lemma TouchDrainAcquire(s: State)
    requires CanDrainAcquire(s) && QueueInv(s) && ConnFacts(s, s.msgs[s.drain.m].conn)
    ensures var m, r := s.drain.m, DidDrainAcquire(s); Touches(s, r, s.msgs[m].conn, m) && CreditMoves(s, r, m)
  {
  }

  lemma TouchDrainGateClosed(s: State)
    requires CanDrainGateClosed(s) && QueueInv(s) && ConnFacts(s, s.msgs[s.drain.m].conn)
    ensures var m, r := s.drain.m, DidDrainGateClosed(s); Touches(s, r, s.msgs[m].conn, m) && CreditMoves(s, r, m)
  {
  }

  lemma TouchDrainPost(s: State)
    requires CanDrainPost(s) && DivideOpen(s) && QueueInv(s) && ConnFacts(s, s.msgs[s.drain.m].conn)
    ensures var m, r := s.drain.m, DidDrainPost(s); Touches(s, r, s.msgs[m].conn, m) && CreditMoves(s, r, m)
  {
  }

  lemma TouchDrainPostClosed(s: State)
    requires CanDrainPost(s) && QueueInv(s) && ConnFacts(s, s.msgs[s.drain.m].conn)
    ensures var m, r := s.drain.m, DidDrainPostClosed(s); Touches(s, r, s.msgs[m].conn, m) && CreditMoves(s, r, m)
  {
  }

  lemma TouchDrainSchedule(s: State)
    requires CanDrainSchedule(s) && QueueInv(s) && ConnFacts(s, s.msgs[s.drain.m].conn)
    ensures var m, r := s.drain.m, DidDrainSchedule(s); Touches(s, r, s.msgs[m].conn, m) && CreditMoves(s, r, m)
  {
  }

  lemma TouchParsePop(s: State)
    requires CanParsePop(s) && QueueInv(s) && ConnFacts(s, s.msgs[s.divide[s.divideHead]].conn)
    ensures var m, r := s.divide[s.divideHead], DidParsePop(s); Touches(s, r, s.msgs[m].conn, m) && CreditMoves(s, r, m)
  {
  }

  lemma TouchParseOk(s: State, m: MsgId)
    requires CanParseOk(s, m) && QueueInv(s) && ConnFacts(s, s.msgs[m].conn)
    ensures var r := DidParseOk(s, m); Touches(s, r, s.msgs[m].conn, m) && CreditMoves(s, r, m)
  {
  }

  lemma TouchParseFailed(s: State, m: MsgId)
    requires IsParsing(s, m) && QueueInv(s) && ConnFacts(s, s.msgs[m].conn)
    ensures var r := ParsedTo(s, m, ParseFailed); Touches(s, r, s.msgs[m].conn, m) && CreditMoves(s, r, m)
  {
  }

  lemma TouchReturnCredit(s: State, w: Thread)
    requires CanReturnCredit(s, w) && QueueInv(s) && ConnFacts(s, s.msgs[s.rt.workers[w].flow].conn)
    requires (s.msgs[s.rt.workers[w].flow].stage.InWork? || s.msgs[s.rt.workers[w].flow].stage.Settled?)
    ensures var m, r := s.rt.workers[w].flow, DidReturnCredit(s, w);
            Touches(s, r, s.msgs[m].conn, m) && CreditMoves(s, r, m)
  {
  }

  lemma TouchFinishOne(s: State, w: Thread)
    requires CanFinishOne(s, w) && ConnFacts(s, s.msgs[s.rt.workers[w].flow].conn)
    requires s.msgs[s.rt.workers[w].flow].stage.Settled?
    ensures var m, r := s.rt.workers[w].flow, DidFinishOne(s, w);
            Touches(s, r, s.msgs[m].conn, m) && CreditMoves(s, r, m)
  {
    FinishAccount(s.conns[s.msgs[s.rt.workers[w].flow].conn], s.msgs[s.rt.workers[w].flow].conn, s.msgs,
                  s.rt.workers[w].flow, w);
    FinishMovesNoCredit(s, w);
  }

  lemma FinishAccount(x: Conn, c: ConnId, msgs: map<MsgId, Msg>, m: MsgId, w: Thread)
    requires SlotsOf(x, c, msgs) && m in msgs && msgs[m].conn == c && HoldsSlot(msgs[m])
    ensures var y := Finished(x, m, w);
      y.slots == x.slots - {m} && y.flow.inFlight == |y.slots| && y.parked == x.parked && y.at == x.at
  {
    FinishedConn(x, m, w);
    assert m in x.slots;
  }

  lemma FinishMovesNoCredit(s: State, w: Thread)
    requires CanFinishOne(s, w) && s.msgs[s.rt.workers[w].flow].stage.Settled?
    ensures var m, r := s.rt.workers[w].flow, DidFinishOne(s, w); m in r.msgs && CreditMoves(s, r, m)
  {
  }

  lemma FinishedConn(x: Conn, m: MsgId, w: Thread)
    ensures var y := Finished(x, m, w);
      y.slots == x.slots - {m} && y.parked == x.parked && y.at == x.at
      && y.flow.inFlight == if x.flow.inFlight > 0 then x.flow.inFlight - 1 else x.flow.inFlight
  {
  }

  // ---------------------------------------------------------------- queues

  predicate InSomeQueue(stage: Stage) {
    stage.Waiting? || stage.InDivide? || stage.Draining? || stage.DrainCredited?
  }

  /** A message that is in no queue may move on without the queues noticing. */
  lemma QueueSame(s: State, r: State, c: ConnId, m: MsgId)
    requires QueueInv(s) && OnlyMsg(s.msgs, r.msgs, m, c) && r.drain == s.drain
    requires r.waiting == s.waiting && r.waitHead == s.waitHead
    requires r.divide == s.divide && r.divideHead == s.divideHead
    requires m in s.msgs ==> !InSomeQueue(s.msgs[m].stage)
                             && (PastPosting(s.msgs[m].stage) ==> PastPosting(r.msgs[m].stage))
    requires m !in s.msgs ==> !WithDrain(s.drain, m)
    ensures QueueInv(r)
  {
  }

  lemma QueueAddWaiting(s: State, c: ConnId)
    requires QueueInv(s) && CanAddWaiting(s, c) && AtInv(s.conns[c].at, c, s.msgs)
    ensures QueueInv(DidAddWaiting(s, c))
  {
  }

  lemma QueueDispatchOk(s: State, c: ConnId)
    requires QueueInv(s) && CanDispatch(s, c) && DivideOpen(s) && AtInv(s.conns[c].at, c, s.msgs)
    ensures QueueInv(DidDispatchOk(s, c))
  {
  }

  lemma QueueDrainPop(s: State)
    requires QueueInv(s) && CanDrainPop(s)
    ensures QueueInv(DidDrainPop(s))
  {
  }

  lemma QueueDrainAcquire(s: State)
    requires QueueInv(s) && CanDrainAcquire(s)
    ensures QueueInv(DidDrainAcquire(s))
  {
  }

  lemma QueueDrainGateClosed(s: State)
    requires QueueInv(s) && CanDrainGateClosed(s)
    ensures QueueInv(DidDrainGateClosed(s))
  {
  }

  lemma QueueDrainPost(s: State)
    requires QueueInv(s) && CanDrainPost(s) && DivideOpen(s)
    ensures QueueInv(DidDrainPost(s))
  {
  }

  lemma QueueDrainPostClosed(s: State)
    requires QueueInv(s) && CanDrainPost(s)
    ensures QueueInv(DidDrainPostClosed(s))
  {
  }

  lemma QueueParsePop(s: State)
    requires QueueInv(s) && CanParsePop(s)
    ensures QueueInv(DidParsePop(s))
  {
  }

  /** The queue and account invariants, together. */
  ghost predicate AccountInv(s: State) {
    SlotInv(s.conns, s.msgs) && HandInv(s.conns, s.msgs) && ParkedInv(s.conns, s.msgs, s.drain)
    && CreditInv(s.msgs, s.credit, s.gate)
  }

  lemma TouchKeepsAccounts(s: State, r: State, c: ConnId, m: MsgId)
    requires AccountInv(s) && Touches(s, r, c, m) && CreditMoves(s, r, m)
    ensures AccountInv(r)
  {
    TouchKeepsSlots(s, r, c, m);
    TouchKeepsHands(s, r, c, m);
    TouchKeepsParked(s, r, c, m);
    TouchKeepsCredit(s, r, c, m);
  }

  /** A step of a reactor, or of anyone else, on the state of one connection alone. */
  lemma ConnKeepsAccounts(s: State, r: State, c: ConnId, x: Conn)
    requires AccountInv(s) && c in s.conns && r.conns == s.conns[c := x]
    requires r.msgs == s.msgs && r.drain == s.drain && r.credit == s.credit && r.gate == s.gate
    requires x.slots == s.conns[c].slots && x.flow.inFlight == s.conns[c].flow.inFlight
    requires x.parked == s.conns[c].parked && AtInv(x.at, c, s.msgs)
    ensures AccountInv(r)
  {
  }

  lemma OpenKeepsAccounts(s: State, c: ConnId)
    requires AccountInv(s) && QueueInv(s) && c !in s.conns
    ensures AccountInv(SetConn(s, c, NewConn(s.window)))
  {
  }

  /** A reactor's own step touches neither slots nor what others have noted, and leaves no message in its hands. */
  ghost predicate OwnFrame(x: Conn, y: Conn, c: ConnId, msgs: map<MsgId, Msg>) {
    && y.slots == x.slots && y.parked == x.parked && y.needy == x.needy
    && y.flow.inFlight == x.flow.inFlight && y.flow.window == x.flow.window
    && AtInv(y.at, c, msgs) && (y.raced ==> x.raced) && y.dropped == x.dropped
  }

  lemma ReactorStepFrame(x: Conn, k: ReactorStep, c: ConnId, msgs: map<MsgId, Msg>)
    requires Can(x, k) && AtInv(x.at, c, msgs)
    ensures OwnFrame(x, Do(x, k), c, msgs)
  {
    if k.EnterRead? || k.LeaveLoop? || k.CutMessage? || k.ReadBytes? || k.ReadAgain? || k.CloseClient? {
      LoopFrame(x, k, c, msgs);
    } else if k.NoSlot? || k.PauseReading? || k.ScheduleRetry? {
      OfferFrame(x, k, c, msgs);
    } else {
      BucketFrame(x, k, c, msgs);
    }
  }

  lemma LoopFrame(x: Conn, k: ReactorStep, c: ConnId, msgs: map<MsgId, Msg>)
    requires Can(x, k) && AtInv(x.at, c, msgs)
    requires k.EnterRead? || k.LeaveLoop? || k.CutMessage? || k.ReadBytes? || k.ReadAgain? || k.CloseClient?
    ensures OwnFrame(x, Do(x, k), c, msgs)
  {
  }

  lemma OfferFrame(x: Conn, k: ReactorStep, c: ConnId, msgs: map<MsgId, Msg>)
    requires Can(x, k) && AtInv(x.at, c, msgs) && (k.NoSlot? || k.PauseReading? || k.ScheduleRetry?)
    ensures OwnFrame(x, Do(x, k), c, msgs)
  {
  }

  lemma BucketFrame(x: Conn, k: ReactorStep, c: ConnId, msgs: map<MsgId, Msg>)
    requires Can(x, k) && AtInv(x.at, c, msgs)
    requires k.SwapResume? || k.ConsumeResume? || k.Unpause? || k.SwapRetry? || k.SkipRetry? || k.ConsumeRetry?
             || k.UnpauseRetry?
    ensures OwnFrame(x, Do(x, k), c, msgs)
  {
  }

  // ---------------------------------------------------------------- every step keeps the accounts

  lemma AccountReactor(s: State, c: ConnId, k: ReactorStep)
    requires AccountInv(s) && c in s.conns && Can(s.conns[c], k)
    ensures AccountInv(SetConn(s, c, Do(s.conns[c], k)))
  {
    ReactorStepFrame(s.conns[c], k, c, s.msgs);
    ConnKeepsAccounts(s, SetConn(s, c, Do(s.conns[c], k)), c, Do(s.conns[c], k));
  }

  lemma AccountTakeSlot(s: State, c: ConnId, m: MsgId)
    requires AccountInv(s) && CanTakeSlot(s, c, m)
    ensures AccountInv(DidTakeSlot(s, c, m))
  {
    GetConnFacts(s, c);
    TouchTakeSlot(s, c, m);
    TouchKeepsAccounts(s, DidTakeSlot(s, c, m), c, m);
  }

  lemma AccountReadingStep(s: State, e: Event)
    requires AccountInv(s) && QueueInv(s) && ReactorEnabled(s, e)
    requires e.Open? || e.Reactor? || e.TakeSlot? || e.AdmitFast? || e.Starve?
    ensures AccountInv(ReactorEffect(s, e))
  {
    match e
    case Open(c) => OpenKeepsAccounts(s, c);
    case Reactor(c, k) => AccountReactor(s, c, k);
    case TakeSlot(c, m) => AccountTakeSlot(s, c, m);
    case AdmitFast(c) => ConnKeepsAccounts(s, SetConn(s, c, PastAdmission(s.conns[c])), c, PastAdmission(s.conns[c]));
    case Starve(c) => ConnKeepsAccounts(s, SetConn(s, c, OutOfCredit(s.conns[c])), c, OutOfCredit(s.conns[c]));
  }

  lemma AccountAdmissionStep(s: State, e: Event)
    requires AccountInv(s) && ReactorEnabled(s, e)
    requires !e.Open? && !e.Reactor? && !e.TakeSlot? && !e.AdmitFast? && !e.Starve?
    ensures AccountInv(ReactorEffect(s, e))
  {
    GetConnFacts(s, e.c);
    match e {
      case AdmitDb(c) => TouchAdmitDb(s, c);
      case AddWaiting(c) => TouchAddWaiting(s, c);
      case RefuseWaiting(c) => TouchRefuseWaiting(s, c);
      case DispatchOk(c) => TouchDispatchOk(s, c);
      case DispatchFull(c) => TouchDispatchFull(s, c);
      case DispatchClosed(c) => TouchDispatchClosed(s, c);
      case GiveBack(c) => TouchGiveBack(s, c);
    }
    TouchKeepsAccounts(s, ReactorEffect(s, e), e.c, s.conns[e.c].at.m);
  }

  lemma AccountDrainAcquire(s: State)
    requires AccountInv(s) && QueueInv(s) && CanDrainAcquire(s)
    ensures AccountInv(DidDrainAcquire(s))
  {
    var c := s.msgs[s.drain.m].conn;
    GetConnFacts(s, c);
    TouchDrainAcquire(s);
    TouchKeepsAccounts(s, DidDrainAcquire(s), c, s.drain.m);
  }

  lemma AccountDrainGateClosed(s: State)
    requires AccountInv(s) && QueueInv(s) && CanDrainGateClosed(s)
    ensures AccountInv(DidDrainGateClosed(s))
  {
    var c := s.msgs[s.drain.m].conn;
    GetConnFacts(s, c);
    TouchDrainGateClosed(s);
    TouchKeepsAccounts(s, DidDrainGateClosed(s), c, s.drain.m);
  }

  lemma AccountDrainPost(s: State)
    requires AccountInv(s) && QueueInv(s) && CanDrainPost(s) && DivideOpen(s)
    ensures AccountInv(DidDrainPost(s))
  {
    var c := s.msgs[s.drain.m].conn;
    GetConnFacts(s, c);
    TouchDrainPost(s);
    TouchKeepsAccounts(s, DidDrainPost(s), c, s.drain.m);
  }

  lemma AccountDrainPostClosed(s: State)
    requires AccountInv(s) && QueueInv(s) && CanDrainPost(s)
    ensures AccountInv(DidDrainPostClosed(s))
  {
    var c := s.msgs[s.drain.m].conn;
    GetConnFacts(s, c);
    TouchDrainPostClosed(s);
    TouchKeepsAccounts(s, DidDrainPostClosed(s), c, s.drain.m);
  }

  lemma AccountDrainSchedule(s: State)
    requires AccountInv(s) && QueueInv(s) && CanDrainSchedule(s)
    ensures AccountInv(DidDrainSchedule(s))
  {
    var c := s.msgs[s.drain.m].conn;
    GetConnFacts(s, c);
    TouchDrainSchedule(s);
    TouchKeepsAccounts(s, DidDrainSchedule(s), c, s.drain.m);
  }

  lemma AccountDrainStep(s: State, e: Event)
    requires AccountInv(s) && QueueInv(s) && QueueEnabled(s, e)
    requires e.DrainAcquire? || e.DrainGateClosed? || e.DrainPost? || e.DrainPostClosed? || e.DrainSchedule?
    ensures AccountInv(QueueEffect(s, e))
  {
    match e
    case DrainAcquire => AccountDrainAcquire(s);
    case DrainGateClosed => AccountDrainGateClosed(s);
    case DrainPost => AccountDrainPost(s);
    case DrainPostClosed => AccountDrainPostClosed(s);
    case DrainSchedule => AccountDrainSchedule(s);
  }

  lemma AccountDrainPop(s: State)
    requires AccountInv(s) && QueueInv(s) && CanDrainPop(s)
    ensures AccountInv(DidDrainPop(s))
  {
    var m := s.waiting[s.waitHead];
    GetConnFacts(s, s.msgs[m].conn);
    TouchDrainPop(s);
    TouchKeepsAccounts(s, DidDrainPop(s), s.msgs[m].conn, m);
  }

  lemma AccountParsePop(s: State)
    requires AccountInv(s) && QueueInv(s) && CanParsePop(s)
    ensures AccountInv(DidParsePop(s))
  {
    var m := s.divide[s.divideHead];
    GetConnFacts(s, s.msgs[m].conn);
    TouchParsePop(s);
    TouchKeepsAccounts(s, DidParsePop(s), s.msgs[m].conn, m);
  }

  lemma AccountParseStep(s: State, e: Event)
    requires AccountInv(s) && QueueInv(s) && QueueEnabled(s, e) && (e.ParseOk? || e.ParseDropped? || e.ParseThrow?)
    ensures AccountInv(QueueEffect(s, e))
  {
    GetConnFacts(s, s.msgs[e.m].conn);
    if e.ParseOk? {
      TouchParseOk(s, e.m);
    } else {
      TouchParseFailed(s, e.m);
    }
    TouchKeepsAccounts(s, QueueEffect(s, e), s.msgs[e.m].conn, e.m);
  }

  lemma AccountReturnCredit(s: State, w: Thread)
    requires AccountInv(s) && QueueInv(s) && CanReturnCredit(s, w)
    requires s.msgs[s.rt.workers[w].flow].stage.InWork? || s.msgs[s.rt.workers[w].flow].stage.Settled?
    ensures AccountInv(DidReturnCredit(s, w))
  {
    var m := s.rt.workers[w].flow;
    GetConnFacts(s, s.msgs[m].conn);
    TouchReturnCredit(s, w);
    TouchKeepsAccounts(s, DidReturnCredit(s, w), s.msgs[m].conn, m);
  }

  lemma AccountFinishOne(s: State, w: Thread)
    requires AccountInv(s) && QueueInv(s) && CanFinishOne(s, w) && s.msgs[s.rt.workers[w].flow].stage.Settled?
    ensures AccountInv(DidFinishOne(s, w))
  {
    var m := s.rt.workers[w].flow;
    GetConnFacts(s, s.msgs[m].conn);
    TouchFinishOne(s, w);
    TouchKeepsAccounts(s, DidFinishOne(s, w), s.msgs[m].conn, m);
  }

  /** The check of the pause flag changes at most these. */
  lemma CheckFrame(x: Conn, w: Thread, needResume: bool)
    ensures var y := AfterCheck(x, w, needResume);
            y == x.(needy := y.needy, resumeBucket := y.resumeBucket, raced := y.raced)
  {
  }

  lemma AccountCheck(s: State, w: Thread, c: ConnId)
    requires AccountInv(s) && CanCheck(s, w) && c == s.msgs[s.rt.workers[w].flow].conn
    ensures AccountInv(DidCheck(s, w))
  {
    CheckFrame(s.conns[c], w, s.rt.workers[w].needResume);
    ConnKeepsAccounts(s, DidCheck(s, w), c, AfterCheck(s.conns[c], w, s.rt.workers[w].needResume));
  }

  lemma AccountClosing(s: State, r: State)
    requires AccountInv(s) && r.conns == s.conns && r.msgs == s.msgs && r.credit == s.credit
    requires r.gate == s.gate || r.gate == s.gate.(closed := true)
    requires forall m :: WithDrain(s.drain, m) == WithDrain(r.drain, m)
    ensures AccountInv(r)
  {
    forall c | c in r.conns ensures ParkedOf(r.conns[c], c, r.msgs, r.drain) {
      GetConnFacts(s, c);
    }
  }

  predicate CountsOnly(e: Event) {
    e.CountDivide? || e.UncountDivide? || e.FinishParse?
  }

  lemma ClosingFrame(s: State, e: Event)
    requires !AtReactor(e) && PoolEnabled(s, e)
    requires e.DrainStop? || e.CloseDivide? || e.CloseGate? || e.StopWaiting? || e.Work? || CountsOnly(e)
    ensures var r := PoolEffect(s, e);
      && r.conns == s.conns && r.msgs == s.msgs && r.credit == s.credit
      && (r.gate == s.gate || r.gate == s.gate.(closed := true))
      && forall m :: WithDrain(s.drain, m) == WithDrain(r.drain, m)
  {
  }

  /** The flow of a worker that ends a task is a message in work. */
  lemma FlowIsInWork(s: State, w: Thread)
    requires WorkInv(s.msgs, s.rt.place, s.rt.workers) && RT.PlacesInv(s.rt)
    requires w in s.rt.workers && RT.Busy(s.rt.workers[w])
    ensures var m := s.rt.workers[w].flow;
            m in s.msgs && m in s.rt.place && (s.msgs[m].stage.InWork? || s.msgs[m].stage.Settled?)
  {
  }

  lemma AccountReactorStep(s: State, e: Event)
    requires AccountInv(s) && QueueInv(s) && ReactorEnabled(s, e)
    ensures AccountInv(ReactorEffect(s, e))
  {
    if e.Open? || e.Reactor? || e.TakeSlot? || e.AdmitFast? || e.Starve? {
      AccountReadingStep(s, e);
    } else {
      AccountAdmissionStep(s, e);
    }
  }

  lemma AccountWorkerStep(s: State, e: Event)
    requires AccountInv(s) && QueueInv(s) && WorkInv(s.msgs, s.rt.place, s.rt.workers) && RT.PlacesInv(s.rt)
    requires WorkEnabled(s, e) && (e.ReturnCredit? || e.FinishOne? || e.CheckPaused?)
    ensures AccountInv(WorkEffect(s, e))
  {
    if e.ReturnCredit? {
      FlowIsInWork(s, e.w);
      AccountReturnCredit(s, e.w);
    } else if e.FinishOne? {
      AccountFinishOne(s, e.w);
    } else {
      AccountCheck(s, e.w, s.msgs[s.rt.workers[e.w].flow].conn);
    }
  }

  lemma AccountPoolStep(s: State, e: Event)
    requires AccountInv(s) && QueueInv(s) && !AtReactor(e) && PoolEnabled(s, e)
    requires !e.ReturnCredit? && !e.FinishOne? && !e.CheckPaused?
    ensures AccountInv(PoolEffect(s, e))
  {
    if e.ParsePop? {
      AccountParsePop(s);
    } else if e.DrainPop? {
      AccountDrainPop(s);
    } else if e.DrainAcquire? || e.DrainGateClosed? || e.DrainPost? || e.DrainPostClosed? || e.DrainSchedule? {
      AccountDrainStep(s, e);
    } else if e.ParseOk? || e.ParseDropped? || e.ParseThrow? {
      AccountParseStep(s, e);
    } else {
      ClosingFrame(s, e);
      AccountClosing(s, PoolEffect(s, e));
    }
  }

  lemma AccountStep(s: State, e: Event)
    requires AccountInv(s) && QueueInv(s) && WorkInv(s.msgs, s.rt.place, s.rt.workers) && RT.PlacesInv(s.rt)
    requires Enabled(s, e)
    ensures AccountInv(Step(s, e))
  {
    if AtReactor(e) {
      AccountReactorStep(s, e);
    } else if e.ReturnCredit? || e.FinishOne? || e.CheckPaused? {
      AccountWorkerStep(s, e);
    } else {
      AccountPoolStep(s, e);
    }
  }

  lemma QueueReactorStep(s: State, e: Event)
    requires QueueInv(s) && HandInv(s.conns, s.msgs) && ReactorEnabled(s, e)
    ensures QueueInv(ReactorEffect(s, e))
  {
    var r := ReactorEffect(s, e);
    if e.AddWaiting? {
      QueueAddWaiting(s, e.c);
    } else if e.DispatchOk? {
      QueueDispatchOk(s, e.c);
    } else if e.TakeSlot? {
      QueueSame(s, r, e.c, e.m);
    } else if e.AdmitDb? || e.RefuseWaiting? {
      QueueAdmission(s, e);
    } else if e.DispatchFull? || e.DispatchClosed? || e.GiveBack? {
      QueueRefusal(s, e);
    }
  }

  lemma QueueAdmission(s: State, e: Event)
    requires QueueInv(s) && HandInv(s.conns, s.msgs) && ReactorEnabled(s, e) && (e.AdmitDb? || e.RefuseWaiting?)
    ensures QueueInv(ReactorEffect(s, e))
  {
    assert AtInv(s.conns[e.c].at, e.c, s.msgs);
    QueueSame(s, ReactorEffect(s, e), e.c, s.conns[e.c].at.m);
  }

  lemma QueueRefusal(s: State, e: Event)
    requires QueueInv(s) && HandInv(s.conns, s.msgs) && ReactorEnabled(s, e)
    requires e.DispatchFull? || e.DispatchClosed? || e.GiveBack?
    ensures QueueInv(ReactorEffect(s, e))
  {
    assert AtInv(s.conns[e.c].at, e.c, s.msgs);
    QueueSame(s, ReactorEffect(s, e), e.c, s.conns[e.c].at.m);
  }

  lemma QueuePoolStep(s: State, e: Event)
    requires QueueInv(s) && WorkInv(s.msgs, s.rt.place, s.rt.workers) && RT.PlacesInv(s.rt)
    requires !AtReactor(e) && PoolEnabled(s, e)
    ensures QueueInv(PoolEffect(s, e))
  {
    if e.DrainPop? || e.DrainAcquire? || e.DrainGateClosed? || e.DrainPost? || e.DrainPostClosed? || e.ParsePop? {
      QueueMoveStep(s, e);
    } else if e.ParseOk? || e.ParseDropped? || e.ParseThrow? {
      QueueSame(s, PoolEffect(s, e), s.msgs[e.m].conn, e.m);
    } else if e.ReturnCredit? {
      QueueReturnCredit(s, e.w);
    } else if e.FinishOne? {
      QueueFinishOne(s, e.w);
    } else if e.CheckPaused? {
      QueueCheck(s, e.w);
    } else {
      QueueOtherStep(s, e);
    }
  }

  lemma QueueMoveStep(s: State, e: Event)
    requires QueueInv(s) && QueueEnabled(s, e)
    requires e.DrainPop? || e.DrainAcquire? || e.DrainGateClosed? || e.DrainPost? || e.DrainPostClosed? || e.ParsePop?
    ensures QueueInv(QueueEffect(s, e))
  {
    match e
    case DrainPop => QueueDrainPop(s);
    case DrainAcquire => QueueDrainAcquire(s);
    case DrainGateClosed => QueueDrainGateClosed(s);
    case DrainPost => QueueDrainPost(s);
    case DrainPostClosed => QueueDrainPostClosed(s);
    case ParsePop => QueueParsePop(s);
  }

  lemma QueueReturnCredit(s: State, w: Thread)
    requires QueueInv(s) && WorkInv(s.msgs, s.rt.place, s.rt.workers) && RT.PlacesInv(s.rt) && CanReturnCredit(s, w)
    ensures QueueInv(DidReturnCredit(s, w))
  {
    FlowIsInWork(s, w);
    QueueSame(s, DidReturnCredit(s, w), s.msgs[s.rt.workers[w].flow].conn, s.rt.workers[w].flow);
  }

  lemma QueueFinishOne(s: State, w: Thread)
    requires QueueInv(s) && WorkInv(s.msgs, s.rt.place, s.rt.workers) && CanFinishOne(s, w)
    ensures QueueInv(DidFinishOne(s, w))
  {
    QueueSame(s, DidFinishOne(s, w), s.msgs[s.rt.workers[w].flow].conn, s.rt.workers[w].flow);
  }

  lemma QueueCheck(s: State, w: Thread)
    requires QueueInv(s) && CanCheck(s, w)
    ensures QueueInv(DidCheck(s, w))
  {
  }

  /** The queues, and the drain thread unless it lets go of its message. */
  predicate SameQueues(s: State, r: State) {
    && r.msgs == s.msgs && r.waiting == s.waiting && r.waitHead == s.waitHead && r.divide == s.divide
    && r.divideHead == s.divideHead && (r.drain == s.drain || r.drain.DrainIdle? || r.drain.DrainExited?)
  }

  lemma SameQueuesKeep(s: State, r: State)
    requires QueueInv(s) && SameQueues(s, r)
    ensures QueueInv(r)
  {
  }

  lemma OtherStepsFrame(s: State, e: Event)
    requires !AtReactor(e) && PoolEnabled(s, e)
    requires e.DrainSchedule? || e.DrainStop? || e.Work? || e.CloseDivide? || e.CloseGate? || e.StopWaiting?
             || CountsOnly(e)
    ensures SameQueues(s, PoolEffect(s, e))
  {
  }

  lemma QueueOtherStep(s: State, e: Event)
    requires QueueInv(s) && !AtReactor(e) && PoolEnabled(s, e)
    requires e.DrainSchedule? || e.DrainStop? || e.Work? || e.CloseDivide? || e.CloseGate? || e.StopWaiting?
             || CountsOnly(e)
    ensures QueueInv(PoolEffect(s, e))
  {
    OtherStepsFrame(s, e);
    SameQueuesKeep(s, PoolEffect(s, e));
  }

  // ---------------------------------------------------------------- the runtime's account

  predicate SettlingTask(x: RT.Worker) {
    x.GivingSlot? || x.Checking?
  }

  /** The workers that give back a slot or check the pause flag are the same before and after. */
  ghost predicate SameSettling(workers: map<Thread, RT.Worker>, workers': map<Thread, RT.Worker>) {
    workers'.Keys == workers.Keys
    && forall w :: w in workers && (SettlingTask(workers[w]) || SettlingTask(workers'[w])) ==> workers'[w] == workers[w]
  }

  /** What the runtime does by itself: no flow comes or goes, and workers about to give back a slot or to check, and
      their flows, stay as they are. */
  ghost predicate Untouched(rt: RT.Runtime, r: RT.Runtime) {
    && r.place.Keys == rt.place.Keys && SameSettling(rt.workers, r.workers)
    && forall m :: SettledBy(m, rt.place, rt.workers) ==> SettledBy(m, r.place, r.workers)
  }

  lemma UntouchedByPop(rt: RT.Runtime, w: Thread)
    requires RT.PlacesInv(rt) && RT.CanPop(rt, w)
    ensures Untouched(rt, RT.Popped(rt, w))
  {
    match rt.work[rt.workHead]
    case RunFlow(m) => UntouchedByPopFlow(rt, w, m);
    case WakeUp(_) =>
  }

  lemma UntouchedByPopFlow(rt: RT.Runtime, w: Thread, m: MsgId)
    requires w in rt.workers && rt.workers[w].Idle? && m in rt.place && rt.place[m].Queued?
    ensures Untouched(rt, RT.PoppedFlow(rt, w, m))
  {
  }

  lemma UntouchedBySuspend(rt: RT.Runtime, w: Thread, k: nat)
    requires RT.CanSuspend(rt, w, k)
    ensures Untouched(rt, RT.DidSuspend(rt, w, k))
  {
  }

  lemma UntouchedByQuery(rt: RT.Runtime, w: Thread)
    requires RT.CanSubmitQuery(rt, w)
    ensures Untouched(rt, RT.DidSubmitQuery(rt, w))
  {
  }

  lemma UntouchedByEnd(rt: RT.Runtime, w: Thread)
    requires RT.CanEnd(rt, w)
    ensures Untouched(rt, RT.Ended(rt, w))
  {
  }

  lemma UntouchedByLeave(rt: RT.Runtime, w: Thread)
    requires RT.PlacesInv(rt) && RT.CanLeave(rt, w)
    ensures Untouched(rt, RT.LeftSuspended(rt, w))
  {
  }

  lemma UntouchedByTake(rt: RT.Runtime, w: Thread)
    requires RT.Inv(rt) && RT.CanTake(rt, w)
    ensures Untouched(rt, RT.TookBlocked(rt, w))
  {
    var k := rt.workers[w].key;
    if k in rt.registry {
      CP.WakingFlow(rt, w);
      UntouchedByTakeOne(rt, w);
    } else {
      assert RT.TookBlocked(rt, w).workers == rt.workers[w := RT.Handing([])];
    }
  }

  lemma UntouchedByTakeOne(rt: RT.Runtime, w: Thread)
    requires RT.CanTake(rt, w) && RT.RegistryInv(rt) && rt.workers[w].key in rt.registry && CP.WakingIsSuspended(rt, w)
    ensures Untouched(rt, RT.TookBlocked(rt, w))
  {
  }

  lemma UntouchedByPost(rt: RT.Runtime, w: Thread)
    requires RT.PlacesInv(rt) && RT.CanPostResume(rt, w)
    ensures Untouched(rt, RT.PostedResume(rt, w))
  {
    assert RT.HandingInv(rt, w);
    var m := rt.workers[w].tasks[0].task;
    UntouchedByPush(rt, RT.Become(rt, w, RT.Handing(rt.workers[w].tasks[1..])), m);
  }

  lemma UntouchedByPush(rt: RT.Runtime, r: RT.Runtime, m: MsgId)
    requires r.workTally.adding > 0 && m in rt.place && !rt.place[m].Executing?
    requires r.place == rt.place && SameSettling(rt.workers, r.workers)
    ensures Untouched(rt, RT.PushFlow(r, m))
  {
  }

  lemma UntouchedBySettled(rt: RT.Runtime, k: nat)
    requires RT.WaitingInv(rt) && RT.RegistryInv(rt) && RT.CanPostSettled(rt, k)
    ensures Untouched(rt, RT.PostedSettled(rt, k))
  {
    var m := rt.settling[k][0].task;
    assert rt.place[m] == RT.Suspended(k);
    UntouchedByPush(rt, rt.(settling := RT.PostedSettled(rt, k).settling), m);
  }

  lemma UntouchedElsewhere(rt: RT.Runtime, x: RT.Event)
    requires RT.Enabled(rt, x) && Internal(x)
    requires !x.PopTask? && !x.Suspend? && !x.SubmitQuery? && !x.FnEnds? && !x.FnSuspended? && !x.TakeBlocked?
             && !x.PostResume? && !x.PostSettled?
    ensures Untouched(rt, RT.Step(rt, x))
  {
  }

  lemma InternalIsUntouched(rt: RT.Runtime, x: RT.Event)
    requires RT.Inv(rt) && RT.Enabled(rt, x) && Internal(x)
    ensures Untouched(rt, RT.Step(rt, x))
  {
    if x.PopTask? || x.Suspend? || x.SubmitQuery? || x.FnEnds? || x.FnSuspended? {
      CoroutineIsUntouched(rt, x);
    } else {
      RestIsUntouched(rt, x);
    }
  }

  lemma CoroutineIsUntouched(rt: RT.Runtime, x: RT.Event)
    requires RT.Inv(rt) && RT.Enabled(rt, x)
    requires x.PopTask? || x.Suspend? || x.SubmitQuery? || x.FnEnds? || x.FnSuspended?
    ensures Untouched(rt, RT.Step(rt, x))
  {
    match x
    case PopTask(w) => UntouchedByPop(rt, w);
    case Suspend(w, k) => UntouchedBySuspend(rt, w, k);
    case SubmitQuery(w) => UntouchedByQuery(rt, w);
    case FnEnds(w) => UntouchedByEnd(rt, w);
    case FnSuspended(w) => UntouchedByLeave(rt, w);
  }

  lemma RestIsUntouched(rt: RT.Runtime, x: RT.Event)
    requires RT.Inv(rt) && RT.Enabled(rt, x) && Internal(x)
    requires !x.PopTask? && !x.Suspend? && !x.SubmitQuery? && !x.FnEnds? && !x.FnSuspended?
    ensures Untouched(rt, RT.Step(rt, x))
  {
    match x
    case TakeBlocked(w) => UntouchedByTake(rt, w);
    case PostResume(w) => UntouchedByPost(rt, w);
    case PostSettled(k) => UntouchedBySettled(rt, k);
    case _ => UntouchedElsewhere(rt, x);
  }

  lemma WorkInternal(s: State, x: RT.Event)
    requires WorkInv(s.msgs, s.rt.place, s.rt.workers) && RT.Inv(s.rt) && RT.Enabled(s.rt, x) && Internal(x)
    ensures var t := RT.Step(s.rt, x); WorkInv(s.msgs, t.place, t.workers)
    ensures NeedyInv(s.conns, s.msgs, s.rt.workers) ==> NeedyInv(s.conns, s.msgs, RT.Step(s.rt, x).workers)
  {
    InternalIsUntouched(s.rt, x);
    SameSettlingKeeps(s, RT.Step(s.rt, x).place, RT.Step(s.rt, x).workers);
  }

  lemma SameSettlingKeeps(s: State, place: map<MsgId, RT.Place>, workers: map<Thread, RT.Worker>)
    requires WorkInv(s.msgs, s.rt.place, s.rt.workers) && place.Keys == s.rt.place.Keys
    requires SameSettling(s.rt.workers, workers)
    requires forall m :: SettledBy(m, s.rt.place, s.rt.workers) ==> SettledBy(m, place, workers)
    ensures WorkInv(s.msgs, place, workers)
    ensures NeedyInv(s.conns, s.msgs, s.rt.workers) ==> NeedyInv(s.conns, s.msgs, workers)
  {
  }

  /** Moving a message that is not the runtime's business leaves the runtime's account alone. */
  lemma TouchKeepsWork(s: State, r: State, c: ConnId, m: MsgId)
    requires WorkInv(s.msgs, s.rt.place, s.rt.workers) && OnlyMsg(s.msgs, r.msgs, m, c)
    requires m in s.msgs ==> !s.msgs[m].stage.InWork? && !s.msgs[m].stage.Settled?
    requires !r.msgs[m].stage.InWork? && !r.msgs[m].stage.Settled?
    ensures WorkInv(r.msgs, s.rt.place, s.rt.workers)
  {
  }

  lemma WorkParseOk(s: State, m: MsgId)
    requires WorkInv(s.msgs, s.rt.place, s.rt.workers) && CanParseOk(s, m)
    ensures var r := DidParseOk(s, m); WorkInv(r.msgs, r.rt.place, r.rt.workers)
  {
  }

  lemma SettlingKeepsWork(msgs: map<MsgId, Msg>, place: map<MsgId, RT.Place>, workers: map<Thread, RT.Worker>,
                          m: MsgId, w: Thread)
    requires WorkInv(msgs, place, workers) && w in workers && workers[w] == RT.Ending(m)
    requires m in msgs && m in place && place[m] == RT.Executing(w)
    ensures WorkInv(msgs[m := msgs[m].(stage := Settled)], place, workers[w := RT.GivingSlot(m)])
  {
  }

  lemma WorkReturnCredit(s: State, w: Thread)
    requires WorkInv(s.msgs, s.rt.place, s.rt.workers) && RT.PlacesInv(s.rt) && CanReturnCredit(s, w)
    ensures var r := DidReturnCredit(s, w); WorkInv(r.msgs, r.rt.place, r.rt.workers)
  {
    FlowIsInWork(s, w);
    SettlingKeepsWork(s.msgs, s.rt.place, s.rt.workers, s.rt.workers[w].flow, w);
  }

  lemma LeavingKeepsWork(msgs: map<MsgId, Msg>, place: map<MsgId, RT.Place>, workers: map<Thread, RT.Worker>,
                         m: MsgId, w: Thread, needResume: bool)
    requires WorkInv(msgs, place, workers) && w in workers && workers[w] == RT.GivingSlot(m)
    requires m in msgs && m in place && place[m] == RT.Executing(w)
    requires forall v :: v in workers && workers[v] == RT.GivingSlot(m) ==> v == w
    ensures WorkInv(msgs[m := msgs[m].(stage := Returned)], place - {m}, workers[w := RT.Checking(m, needResume)])
  {
  }

  lemma WorkFinishOne(s: State, w: Thread)
    requires WorkInv(s.msgs, s.rt.place, s.rt.workers) && RT.PlacesInv(s.rt) && CanFinishOne(s, w)
    ensures var r := DidFinishOne(s, w); WorkInv(r.msgs, r.rt.place, r.rt.workers)
  {
    FlowIsInWork(s, w);
    var m := s.rt.workers[w].flow;
    LeavingKeepsWork(s.msgs, s.rt.place, s.rt.workers, m, w, Finishing(s.conns[s.msgs[m].conn].flow).yes);
  }

  lemma WorkCheck(s: State, w: Thread)
    requires WorkInv(s.msgs, s.rt.place, s.rt.workers) && CanCheck(s, w)
    ensures var r := DidCheck(s, w); WorkInv(r.msgs, r.rt.place, r.rt.workers)
  {
  }

  /** The message a reactor holds, and the ones in queues, are not in work. */
  lemma WorkReactorStep(s: State, e: Event)
    requires WorkInv(s.msgs, s.rt.place, s.rt.workers) && HandInv(s.conns, s.msgs) && ReactorEnabled(s, e)
    ensures var r := ReactorEffect(s, e); WorkInv(r.msgs, r.rt.place, r.rt.workers)
  {
    if e.TakeSlot? {
      TouchKeepsWork(s, ReactorEffect(s, e), e.c, e.m);
    } else if !e.Open? && !e.Reactor? && !e.AdmitFast? && !e.Starve? {
      assert AtInv(s.conns[e.c].at, e.c, s.msgs);
      WorkHandStep(s, e);
    }
  }

  lemma WorkHandStep(s: State, e: Event)
    requires WorkInv(s.msgs, s.rt.place, s.rt.workers) && ReactorEnabled(s, e)
    requires !e.Open? && !e.Reactor? && !e.TakeSlot? && !e.AdmitFast? && !e.Starve?
    requires AtInv(s.conns[e.c].at, e.c, s.msgs)
    ensures var r := ReactorEffect(s, e); WorkInv(r.msgs, r.rt.place, r.rt.workers)
  {
    TouchKeepsWork(s, ReactorEffect(s, e), e.c, s.conns[e.c].at.m);
  }

  lemma WorkDrainStep(s: State, e: Event)
    requires WorkInv(s.msgs, s.rt.place, s.rt.workers) && QueueInv(s) && QueueEnabled(s, e)
    requires e.DrainAcquire? || e.DrainGateClosed? || e.DrainPost? || e.DrainPostClosed?
    ensures var r := QueueEffect(s, e); WorkInv(r.msgs, r.rt.place, r.rt.workers)
  {
    TouchKeepsWork(s, QueueEffect(s, e), s.msgs[s.drain.m].conn, s.drain.m);
  }

  lemma WorkPopStep(s: State)
    requires WorkInv(s.msgs, s.rt.place, s.rt.workers) && QueueInv(s)
    ensures CanDrainPop(s) ==> WorkInv(DidDrainPop(s).msgs, s.rt.place, s.rt.workers)
    ensures CanParsePop(s) ==> WorkInv(DidParsePop(s).msgs, s.rt.place, s.rt.workers)
  {
    if CanDrainPop(s) {
      var m := s.waiting[s.waitHead];
      TouchKeepsWork(s, DidDrainPop(s), s.msgs[m].conn, m);
    }
    if CanParsePop(s) {
      var m := s.divide[s.divideHead];
      TouchKeepsWork(s, DidParsePop(s), s.msgs[m].conn, m);
    }
  }

  lemma WorkStep(s: State, e: Event)
    requires WorkInv(s.msgs, s.rt.place, s.rt.workers) && HandInv(s.conns, s.msgs) && QueueInv(s) && RT.Inv(s.rt)
    requires Enabled(s, e)
    ensures var r := Step(s, e); WorkInv(r.msgs, r.rt.place, r.rt.workers)
  {
    if AtReactor(e) {
      WorkReactorStep(s, e);
    } else if e.Work? {
      WorkInternal(s, e.e);
    } else if e.ParseOk? {
      WorkParseOk(s, e.m);
    } else if e.ReturnCredit? {
      WorkReturnCredit(s, e.w);
    } else if e.FinishOne? {
      WorkFinishOne(s, e.w);
    } else if e.CheckPaused? {
      WorkCheck(s, e.w);
    } else {
      WorkPoolStep(s, e);
    }
  }

  lemma WorkPoolStep(s: State, e: Event)
    requires WorkInv(s.msgs, s.rt.place, s.rt.workers) && QueueInv(s) && QueueEnabled(s, e)
    requires !e.Work? && !e.ParseOk? && !e.ReturnCredit? && !e.FinishOne? && !e.CheckPaused?
    ensures var r := QueueEffect(s, e); WorkInv(r.msgs, r.rt.place, r.rt.workers)
  {
    if e.ParseDropped? || e.ParseThrow? {
      TouchKeepsWork(s, QueueEffect(s, e), s.msgs[e.m].conn, e.m);
    } else if e.DrainPop? || e.ParsePop? {
      WorkPopStep(s);
    } else if e.DrainAcquire? || e.DrainGateClosed? || e.DrainPost? || e.DrainPostClosed? {
      WorkDrainStep(s, e);
    }
  }

  // ---------------------------------------------------------------- needy workers

  /** No message is lost, and only its stage may change. */
  ghost predicate OnlyStages(msgs: map<MsgId, Msg>, msgs': map<MsgId, Msg>) {
    msgs.Keys <= msgs'.Keys && forall m :: m in msgs ==> msgs'[m] == msgs[m].(stage := msgs'[m].stage)
  }

  /** Connections stay, with their needy workers, and no race is noted. */
  ghost predicate SameHistory(conns: map<ConnId, Conn>, conns': map<ConnId, Conn>) {
    && conns'.Keys == conns.Keys
    && forall c :: c in conns ==> conns'[c].needy == conns[c].needy && (conns'[c].raced ==> conns[c].raced)
  }

  lemma NeedySame(s: State, r: State)
    requires NeedyInv(s.conns, s.msgs, s.rt.workers) && WorkInv(s.msgs, s.rt.place, s.rt.workers)
    requires OnlyStages(s.msgs, r.msgs) && SameHistory(s.conns, r.conns)
    requires r.rt.workers == s.rt.workers
    ensures NeedyInv(r.conns, r.msgs, r.rt.workers)
  {
    forall c | c in r.conns ensures NeedyOf(r.conns[c], c, r.msgs, r.rt.workers) {
      assert NeedyOf(s.conns[c], c, s.msgs, s.rt.workers);
    }
  }

  lemma NeedyReactorStep(s: State, e: Event)
    requires NeedyInv(s.conns, s.msgs, s.rt.workers) && WorkInv(s.msgs, s.rt.place, s.rt.workers)
    requires SlotInv(s.conns, s.msgs) && HandInv(s.conns, s.msgs) && AtReactor(e) && ReactorEnabled(s, e)
    ensures var r := ReactorEffect(s, e); NeedyInv(r.conns, r.msgs, r.rt.workers)
  {
    if e.Open? {
      NeedyOpen(s, e.c);
    } else {
      FrameReactor(s, e);
      NeedySame(s, ReactorEffect(s, e));
    }
  }

  lemma FrameReactor(s: State, e: Event)
    requires HandInv(s.conns, s.msgs) && AtReactor(e) && ReactorEnabled(s, e) && !e.Open?
    ensures var r := ReactorEffect(s, e);
            OnlyStages(s.msgs, r.msgs) && SameHistory(s.conns, r.conns) && r.rt.workers == s.rt.workers
  {
    if e.Reactor? {
      assert AtInv(s.conns[e.c].at, e.c, s.msgs);
      ReactorStepFrame(s.conns[e.c], e.r, e.c, s.msgs);
    } else if e.TakeSlot? || e.AdmitFast? || e.Starve? {
      FrameFirst(s, e);
    } else {
      FrameHand(s, e);
    }
  }

  lemma NeedyOpen(s: State, c: ConnId)
    requires NeedyInv(s.conns, s.msgs, s.rt.workers) && SlotInv(s.conns, s.msgs) && c !in s.conns
    ensures var r := SetConn(s, c, NewConn(s.window)); NeedyInv(r.conns, r.msgs, r.rt.workers)
  {
  }

  lemma FrameFirst(s: State, e: Event)
    requires ReactorEnabled(s, e) && (e.TakeSlot? || e.AdmitFast? || e.Starve?)
    ensures var r := ReactorEffect(s, e);
            OnlyStages(s.msgs, r.msgs) && SameHistory(s.conns, r.conns) && r.rt == s.rt
  {
  }

  lemma AdvanceFrame(s: State, c: ConnId, x: Conn, m: MsgId, stage: Stage)
    requires c in s.conns && m in s.msgs && x.needy == s.conns[c].needy && x.raced == s.conns[c].raced
    ensures var r := Advance(s, c, x, m, stage); OnlyStages(s.msgs, r.msgs) && SameHistory(s.conns, r.conns)
  {
  }

  lemma FrameHand(s: State, e: Event)
    requires ReactorEnabled(s, e)
    requires !e.Open? && !e.Reactor? && !e.TakeSlot? && !e.AdmitFast? && !e.Starve?
    ensures var r := ReactorEffect(s, e);
            OnlyStages(s.msgs, r.msgs) && SameHistory(s.conns, r.conns) && r.rt == s.rt
  {
    var r, m := ReactorEffect(s, e), s.conns[e.c].at.m;
    AdvanceFrame(s, e.c, r.conns[e.c], m, r.msgs[m].stage);
  }

  lemma FrameQueue(s: State, e: Event)
    requires QueueEnabled(s, e)
    requires e.DrainPop? || e.DrainAcquire? || e.DrainGateClosed? || e.DrainPost? || e.DrainPostClosed?
             || e.DrainSchedule? || e.ParsePop?
    ensures var r := QueueEffect(s, e);
            OnlyStages(s.msgs, r.msgs) && SameHistory(s.conns, r.conns) && r.rt == s.rt
  {
    if e.DrainPostClosed? || e.DrainSchedule? {
      FrameDrainEnd(s, e);
    } else {
      FrameDrainMove(s, e);
    }
  }

  lemma FrameDrainEnd(s: State, e: Event)
    requires QueueEnabled(s, e) && (e.DrainPostClosed? || e.DrainSchedule?)
    ensures var r := QueueEffect(s, e);
            OnlyStages(s.msgs, r.msgs) && SameHistory(s.conns, r.conns) && r.rt == s.rt
  {
  }

  lemma FrameDrainMove(s: State, e: Event)
    requires QueueEnabled(s, e)
    requires e.DrainPop? || e.DrainAcquire? || e.DrainGateClosed? || e.DrainPost? || e.ParsePop?
    ensures var r := QueueEffect(s, e);
            OnlyStages(s.msgs, r.msgs) && r.msgs.Keys == s.msgs.Keys && r.conns == s.conns && r.rt == s.rt
  {
    if e.DrainAcquire? || e.DrainPost? {
      FrameDrainCredit(s, e);
    } else {
      FrameQueueMove(s, e);
    }
  }

  lemma FrameDrainCredit(s: State, e: Event)
    requires QueueEnabled(s, e) && (e.DrainAcquire? || e.DrainPost?)
    ensures var r := QueueEffect(s, e);
            OnlyStages(s.msgs, r.msgs) && r.msgs.Keys == s.msgs.Keys && r.conns == s.conns && r.rt == s.rt
  {
  }

  lemma FrameQueueMove(s: State, e: Event)
    requires QueueEnabled(s, e) && (e.DrainPop? || e.DrainGateClosed? || e.ParsePop?)
    ensures var r := QueueEffect(s, e);
            OnlyStages(s.msgs, r.msgs) && r.msgs.Keys == s.msgs.Keys && r.conns == s.conns && r.rt == s.rt
  {
  }

  lemma FrameParse(s: State, e: Event)
    requires QueueEnabled(s, e) && (e.ParseOk? || e.ParseDropped? || e.ParseThrow?)
    ensures var r := QueueEffect(s, e);
            OnlyStages(s.msgs, r.msgs) && r.msgs.Keys == s.msgs.Keys && r.conns == s.conns
            && r.rt.workers == s.rt.workers
  {
    if e.ParseOk? {
      FrameParseOk(s, e.m);
    } else {
      FrameParsedTo(s, e.m, ParseFailed);
    }
  }

  lemma FrameParsedTo(s: State, m: MsgId, stage: Stage)
    requires m in s.msgs
    ensures var r := ParsedTo(s, m, stage);
            OnlyStages(s.msgs, r.msgs) && r.msgs.Keys == s.msgs.Keys && r.conns == s.conns && r.rt == s.rt
  {
  }

  lemma FrameParseOk(s: State, m: MsgId)
    requires CanParseOk(s, m)
    ensures var r := DidParseOk(s, m);
            OnlyStages(s.msgs, r.msgs) && r.msgs.Keys == s.msgs.Keys && r.conns == s.conns
            && r.rt.workers == s.rt.workers
  {
    FrameParsedTo(s, m, InWork);
  }

  lemma FrameClosing(s: State, e: Event)
    requires QueueEnabled(s, e)
    requires e.DrainStop? || e.CloseDivide? || e.CloseGate? || e.StopWaiting? || CountsOnly(e)
    ensures var r := QueueEffect(s, e); r.msgs == s.msgs && r.conns == s.conns && r.rt == s.rt
  {
    if CountsOnly(e) {
      FrameCounting(s, e);
    }
  }

  lemma FrameCounting(s: State, e: Event)
    requires QueueEnabled(s, e) && CountsOnly(e)
    ensures var r := QueueEffect(s, e); r.msgs == s.msgs && r.conns == s.conns && r.rt == s.rt
  {
  }

  lemma FrameCredit(s: State, w: Thread)
    requires CanReturnCredit(s, w) && NeedyInv(s.conns, s.msgs, s.rt.workers)
    requires WorkInv(s.msgs, s.rt.place, s.rt.workers)
    ensures var r := DidReturnCredit(s, w); NeedyInv(r.conns, r.msgs, r.rt.workers)
  {
    var r := DidReturnCredit(s, w);
    forall v ensures NeedsResume(s.rt.workers, v) == NeedsResume(r.rt.workers, v) {
    }
    assert r.conns == s.conns && OnlyStages(s.msgs, r.msgs) && r.msgs.Keys == s.msgs.Keys;
    forall c | c in r.conns ensures NeedyOf(r.conns[c], c, r.msgs, r.rt.workers) {
      assert NeedyOf(s.conns[c], c, s.msgs, s.rt.workers);
    }
  }

  lemma NeedyQueueStep(s: State, e: Event)
    requires NeedyInv(s.conns, s.msgs, s.rt.workers) && WorkInv(s.msgs, s.rt.place, s.rt.workers)
    requires QueueEnabled(s, e)
    requires !e.Work? && !e.FinishOne? && !e.CheckPaused? && !e.ReturnCredit?
    ensures var r := QueueEffect(s, e); NeedyInv(r.conns, r.msgs, r.rt.workers)
  {
    if e.DrainPop? || e.DrainAcquire? || e.DrainGateClosed? || e.DrainPost? || e.DrainPostClosed?
       || e.DrainSchedule? || e.ParsePop? {
      FrameQueue(s, e);
    } else if e.ParseOk? || e.ParseDropped? || e.ParseThrow? {
      FrameParse(s, e);
    } else {
      FrameClosing(s, e);
    }
    NeedySame(s, QueueEffect(s, e));
  }

  lemma NeedyFinishOne(s: State, w: Thread)
    requires NeedyInv(s.conns, s.msgs, s.rt.workers) && WorkInv(s.msgs, s.rt.place, s.rt.workers) && CanFinishOne(s, w)
    ensures var r := DidFinishOne(s, w); NeedyInv(r.conns, r.msgs, r.rt.workers)
  {
    var r := DidFinishOne(s, w);
    forall c | c in r.conns ensures NeedyOf(r.conns[c], c, r.msgs, r.rt.workers) {
      assert NeedyOf(s.conns[c], c, s.msgs, s.rt.workers);
    }
  }

  lemma NeedyCheck(s: State, w: Thread)
    requires NeedyInv(s.conns, s.msgs, s.rt.workers) && CanCheck(s, w)
    ensures var r := DidCheck(s, w); NeedyInv(r.conns, r.msgs, r.rt.workers)
  {
    var r := DidCheck(s, w);
    forall c | c in r.conns ensures NeedyOf(r.conns[c], c, r.msgs, r.rt.workers) {
      NeedyCheckOf(s, w, c);
    }
  }

  lemma NeedyCheckOf(s: State, w: Thread, c: ConnId)
    requires CanCheck(s, w) && c in s.conns && NeedyOf(s.conns[c], c, s.msgs, s.rt.workers)
    ensures var r := DidCheck(s, w); c in r.conns && NeedyOf(r.conns[c], c, r.msgs, r.rt.workers)
  {
  }

  lemma NeedyStep(s: State, e: Event)
    requires NeedyInv(s.conns, s.msgs, s.rt.workers) && WorkInv(s.msgs, s.rt.place, s.rt.workers) && RT.Inv(s.rt)
    requires SlotInv(s.conns, s.msgs) && HandInv(s.conns, s.msgs) && Enabled(s, e)
    ensures var r := Step(s, e); NeedyInv(r.conns, r.msgs, r.rt.workers)
  {
    if AtReactor(e) {
      NeedyReactorStep(s, e);
    } else if e.Work? {
      WorkInternal(s, e.e);
    } else if e.FinishOne? {
      NeedyFinishOne(s, e.w);
    } else if e.CheckPaused? {
      NeedyCheck(s, e.w);
    } else if e.ReturnCredit? {
      FrameCredit(s, e.w);
    } else {
      NeedyQueueStep(s, e);
    }
  }

  // ---------------------------------------------------------------- read control

  lemma ControlOf(s: State, r: State, c: ConnId, x: Conn)
    requires ControlInv(s) && c in s.conns && r.conns == s.conns[c := x] && r.window == s.window
    requires ConnInv(x) && x.flow.window == s.conns[c].flow.window
    ensures ControlInv(r)
  {
  }

  /** Between two points of `on_message` only the point changes. */
  lemma MovingOnKeeps(x: Conn, at: At)
    requires ConnInv(x) && (x.at.Hand? || x.at.Admitted? || x.at.Starved?)
    requires at.Admitted? || at.Starved? || at.Refused?
    ensures ConnInv(x.(at := at))
  {
  }

  lemma WindowStays(x: Conn, m: MsgId)
    ensures x.at.Have? ==> TookSlot(x, m).flow.window == x.flow.window
    ensures x.at.Refused? ==> ReleasedSlot(x).flow.window == x.flow.window
  {
  }

  /** A message that has not given its slot back is counted. */
  lemma SlotIsCounted(s: State, m: MsgId)
    requires SlotInv(s.conns, s.msgs) && m in s.msgs && HoldsSlot(s.msgs[m])
    ensures s.msgs[m].conn in s.conns && s.conns[s.msgs[m].conn].flow.inFlight > 0
  {
    var x := s.conns[s.msgs[m].conn];
    assert SlotsOf(x, s.msgs[m].conn, s.msgs) && m in x.slots;
    assert x.slots == (x.slots - {m}) + {m};
  }

  lemma ControlReactor(s: State, c: ConnId, k: ReactorStep)
    requires ControlInv(s) && HandInv(s.conns, s.msgs) && c in s.conns && Can(s.conns[c], k)
    ensures ControlInv(SetConn(s, c, Do(s.conns[c], k)))
  {
    assert AtInv(s.conns[c].at, c, s.msgs);
    ReactorStepFrame(s.conns[c], k, c, s.msgs);
    ReactorStepKeeps(s.conns[c], k);
    ControlOf(s, SetConn(s, c, Do(s.conns[c], k)), c, Do(s.conns[c], k));
  }

  lemma ControlTakeSlot(s: State, c: ConnId, m: MsgId)
    requires ControlInv(s) && CanTakeSlot(s, c, m)
    ensures ControlInv(DidTakeSlot(s, c, m))
  {
    SlotStepKeeps(s.conns[c], m);
    WindowStays(s.conns[c], m);
    ControlOf(s, DidTakeSlot(s, c, m), c, TookSlot(s.conns[c], m));
  }

  lemma ControlAdmission(s: State, e: Event)
    requires ControlInv(s) && ReactorEnabled(s, e) && (e.AdmitFast? || e.AdmitDb? || e.Starve?)
    ensures ControlInv(ReactorEffect(s, e))
  {
    var r := ReactorEffect(s, e);
    MovingOnKeeps(s.conns[e.c], r.conns[e.c].at);
    ControlOf(s, r, e.c, r.conns[e.c]);
  }

  lemma ControlHandOver(s: State, e: Event)
    requires ControlInv(s) && ReactorEnabled(s, e) && (e.AddWaiting? || e.DispatchOk?)
    ensures ControlInv(ReactorEffect(s, e))
  {
    var r := ReactorEffect(s, e);
    HandOverKeeps(s.conns[e.c]);
    ControlOf(s, r, e.c, r.conns[e.c]);
  }

  lemma ControlGiveBack(s: State, c: ConnId)
    requires ControlInv(s) && SlotInv(s.conns, s.msgs) && HandInv(s.conns, s.msgs) && CanGiveBack(s, c)
    ensures ControlInv(DidGiveBack(s, c))
  {
    var x := s.conns[c];
    assert AtInv(x.at, c, s.msgs);
    SlotIsCounted(s, x.at.m);
    SlotStepKeeps(x, x.at.m);
    WindowStays(x, x.at.m);
    ControlOf(s, DidGiveBack(s, c), c, ReleasedSlot(x));
  }

  lemma ControlAnswerStep(s: State, e: Event)
    requires ControlInv(s) && ReactorEnabled(s, e)
    requires e.RefuseWaiting? || e.DispatchFull? || e.DispatchClosed?
    ensures ControlInv(ReactorEffect(s, e))
  {
    var r, x := ReactorEffect(s, e), s.conns[e.c];
    if !e.DispatchClosed? {
      MovingOnKeeps(x, r.conns[e.c].at);
    }
    ControlOf(s, r, e.c, r.conns[e.c]);
  }

  lemma ControlDrainSchedule(s: State)
    requires ControlInv(s) && CanDrainSchedule(s)
    ensures ControlInv(DidDrainSchedule(s))
  {
    var c := s.msgs[s.drain.m].conn;
    DrainStepKeeps(s.conns[c], s.drain.m);
    ControlOf(s, DidDrainSchedule(s), c, Rescheduled(s.conns[c], s.drain.m));
  }

  lemma ControlDrainPostClosed(s: State)
    requires ControlInv(s) && CanDrainPost(s)
    ensures ControlInv(DidDrainPostClosed(s))
  {
    var c := s.msgs[s.drain.m].conn;
    DrainStepKeeps(s.conns[c], s.drain.m);
    ControlOf(s, DidDrainPostClosed(s), c, DroppedOne(s.conns[c], s.drain.m));
  }

  lemma ControlFinishOne(s: State, w: Thread)
    requires ControlInv(s) && SlotInv(s.conns, s.msgs) && CanFinishOne(s, w)
    requires HoldsSlot(s.msgs[s.rt.workers[w].flow])
    ensures ControlInv(DidFinishOne(s, w))
  {
    var m := s.rt.workers[w].flow;
    var c := s.msgs[m].conn;
    SlotIsCounted(s, m);
    WorkerStepKeeps(s.conns[c], m, w);
    assert Finished(s.conns[c], m, w).flow.window == s.conns[c].flow.window;
    ControlOf(s, DidFinishOne(s, w), c, Finished(s.conns[c], m, w));
  }

  lemma ControlCheck(s: State, w: Thread)
    requires ControlInv(s) && CanCheck(s, w)
    ensures ControlInv(DidCheck(s, w))
  {
    var c := s.msgs[s.rt.workers[w].flow].conn;
    WorkerStepKeeps(s.conns[c], 0, w);
    CheckFrame(s.conns[c], w, s.rt.workers[w].needResume);
    ControlOf(s, DidCheck(s, w), c, AfterCheck(s.conns[c], w, s.rt.workers[w].needResume));
  }

  /** No other step of the pools looks at a connection. */
  lemma ConnsElsewhere(s: State, e: Event)
    requires !AtReactor(e) && PoolEnabled(s, e)
    requires !e.DrainSchedule? && !e.DrainPostClosed? && !e.FinishOne? && !e.CheckPaused?
    ensures PoolEffect(s, e).conns == s.conns && PoolEffect(s, e).window == s.window
  {
    if e.DrainPop? || e.DrainAcquire? || e.DrainGateClosed? || e.DrainPost? || e.ParsePop? {
      FrameDrainMove(s, e);
    }
  }

  lemma ControlPoolStep(s: State, e: Event)
    requires ControlInv(s) && SlotInv(s.conns, s.msgs) && !AtReactor(e) && PoolEnabled(s, e)
    requires WorkInv(s.msgs, s.rt.place, s.rt.workers)
    ensures ControlInv(PoolEffect(s, e))
  {
    if e.DrainSchedule? {
      ControlDrainSchedule(s);
    } else if e.DrainPostClosed? {
      ControlDrainPostClosed(s);
    } else if e.FinishOne? {
      ControlFinishOne(s, e.w);
    } else if e.CheckPaused? {
      ControlCheck(s, e.w);
    } else {
      ConnsElsewhere(s, e);
    }
  }

  lemma ControlReactorStep(s: State, e: Event)
    requires ControlInv(s) && SlotInv(s.conns, s.msgs) && HandInv(s.conns, s.msgs) && ReactorEnabled(s, e)
    ensures ControlInv(ReactorEffect(s, e))
  {
    if e.Open? {
    } else if e.Reactor? {
      ControlReactor(s, e.c, e.r);
    } else if e.TakeSlot? {
      ControlTakeSlot(s, e.c, e.m);
    } else if e.AdmitFast? || e.AdmitDb? || e.Starve? {
      ControlAdmission(s, e);
    } else if e.AddWaiting? || e.DispatchOk? {
      ControlHandOver(s, e);
    } else if e.GiveBack? {
      ControlGiveBack(s, e.c);
    } else {
      ControlAnswerStep(s, e);
    }
  }

  lemma ControlStep(s: State, e: Event)
    requires ControlInv(s) && SlotInv(s.conns, s.msgs) && HandInv(s.conns, s.msgs) && Enabled(s, e)
    requires WorkInv(s.msgs, s.rt.place, s.rt.workers)
    ensures ControlInv(Step(s, e))
  {
    if AtReactor(e) {
      ControlReactorStep(s, e);
    } else {
      ControlPoolStep(s, e);
    }
  }

  // ---------------------------------------------------------------- byte streams

  lemma StreamsOf(conns: map<ConnId, Conn>, c: ConnId, x: Conn)
    requires StreamsInv(conns) && Lossless(x)
    ensures StreamsInv(conns[c := x])
  {
  }

  lemma NewStream(window: int)
    ensures Lossless(NewConn(window))
  {
  }

  lemma SameStream(x: Conn, y: Conn)
    requires Lossless(x) && y.received == x.received && y.taken == x.taken && y.buffer == x.buffer
    requires y.connected == x.connected && Held(y.at) == Held(x.at)
    requires !x.connected ==> y.at == x.at
    ensures Lossless(y)
  {
  }

  lemma ClosedStream(x: Conn)
    requires Lossless(x)
    ensures Lossless(x.(connected := false, at := Out))
  {
    if x.connected {
      assert x.taken <= x.taken + Held(x.at) + Decode(x.buffer).msgs;
    }
  }

  /** Steps of `on_message` that leave the message in the reactor's hands. */
  lemma AdmissionOfConn(s: State, e: Event)
    requires ReactorEnabled(s, e)
    requires e.TakeSlot? || e.AdmitFast? || e.AdmitDb? || e.Starve? || e.RefuseWaiting? || e.DispatchFull?
             || e.GiveBack?
    ensures var r := ReactorEffect(s, e); e.c in s.conns && e.c in r.conns && r.conns == s.conns[e.c := r.conns[e.c]]
    ensures var x, y := s.conns[e.c], ReactorEffect(s, e).conns[e.c];
      && y.received == x.received && y.taken == x.taken && y.buffer == x.buffer && y.connected == x.connected
      && Held(y.at) == Held(x.at)
  {
  }

  lemma StreamsAdmission(s: State, e: Event)
    requires StreamsInv(s.conns) && ReactorEnabled(s, e)
    requires e.TakeSlot? || e.AdmitFast? || e.AdmitDb? || e.Starve? || e.RefuseWaiting? || e.DispatchFull?
             || e.GiveBack?
    ensures StreamsInv(ReactorEffect(s, e).conns)
  {
    var x, y := s.conns[e.c], ReactorEffect(s, e).conns[e.c];
    AdmissionOfConn(s, e);
    assert Lossless(x);
    SameStream(x, y);
    StreamsOf(s.conns, e.c, y);
  }

  lemma StreamsReactorStep(s: State, e: Event)
    requires StreamsInv(s.conns) && ReactorEnabled(s, e)
    ensures StreamsInv(ReactorEffect(s, e).conns)
  {
    if e.Open? {
      NewStream(s.window);
      StreamsOf(s.conns, e.c, NewConn(s.window));
    } else if e.Reactor? {
      StreamStep(s.conns[e.c], e.r);
      StreamsOf(s.conns, e.c, Do(s.conns[e.c], e.r));
    } else if e.AddWaiting? {
      HandOverKeepsStream(s.conns[e.c]);
      StreamsOf(s.conns, e.c, ParkedOne(s.conns[e.c]));
    } else if e.DispatchOk? {
      HandOverKeepsStream(s.conns[e.c]);
      StreamsOf(s.conns, e.c, DispatchedOne(s.conns[e.c]));
    } else if e.DispatchClosed? {
      ClosedStream(s.conns[e.c]);
      StreamsOf(s.conns, e.c, s.conns[e.c].(connected := false, at := Out));
    } else {
      StreamsAdmission(s, e);
    }
  }

  /** The drain thread and the workers do not touch the stream. */
  lemma StreamsPoolStep(s: State, e: Event)
    requires StreamsInv(s.conns) && !AtReactor(e) && PoolEnabled(s, e)
    ensures StreamsInv(PoolEffect(s, e).conns)
  {
    if e.DrainSchedule? || e.DrainPostClosed? {
      StreamsDrain(s, e);
    } else if e.FinishOne? {
      StreamsFinishOne(s, e.w);
    } else if e.CheckPaused? {
      StreamsCheck(s, e.w);
    } else {
      ConnsElsewhere(s, e);
    }
  }

  lemma StreamsDrain(s: State, e: Event)
    requires StreamsInv(s.conns) && QueueEnabled(s, e) && (e.DrainSchedule? || e.DrainPostClosed?)
    ensures StreamsInv(QueueEffect(s, e).conns)
  {
    var c := s.msgs[s.drain.m].conn;
    var y := QueueEffect(s, e).conns[c];
    assert Lossless(s.conns[c]);
    SameStream(s.conns[c], y);
    StreamsOf(s.conns, c, y);
  }

  lemma StreamsFinishOne(s: State, w: Thread)
    requires StreamsInv(s.conns) && CanFinishOne(s, w)
    ensures StreamsInv(DidFinishOne(s, w).conns)
  {
    var m := s.rt.workers[w].flow;
    var c := s.msgs[m].conn;
    SameStream(s.conns[c], Finished(s.conns[c], m, w));
    StreamsOf(s.conns, c, Finished(s.conns[c], m, w));
  }

  lemma StreamsCheck(s: State, w: Thread)
    requires StreamsInv(s.conns) && CanCheck(s, w)
    ensures StreamsInv(DidCheck(s, w).conns)
  {
    var c := s.msgs[s.rt.workers[w].flow].conn;
    var y := AfterCheck(s.conns[c], w, s.rt.workers[w].needResume);
    CheckFrame(s.conns[c], w, s.rt.workers[w].needResume);
    SameStream(s.conns[c], y);
    StreamsOf(s.conns, c, y);
  }

  // ---------------------------------------------------------------- the parse pool

  /** A message outside the parse pool may move on without the pool noticing, as long as it does not enter it. */
  lemma DivideSame(s: State, r: State, c: ConnId, m: MsgId)
    requires DivideInv(s) && OnlyMsg(s.msgs, r.msgs, m, c)
    requires r.divide == s.divide && r.divideHead == s.divideHead && r.divideTally == s.divideTally
    requires r.parsing == s.parsing && r.parseDone == s.parseDone
    requires m in s.msgs ==> !s.msgs[m].stage.Parsing?
    requires m in s.msgs && PastPosting(s.msgs[m].stage) ==> PastPosting(r.msgs[m].stage)
    requires !r.msgs[m].stage.Parsing? && !r.msgs[m].stage.InDivide?
    ensures DivideInv(r)
  {
  }

  lemma DividePush(s: State, r: State, c: ConnId, m: MsgId)
    requires DivideInv(s) && OnlyMsg(s.msgs, r.msgs, m, c) && s.divideTally.adding > 0
    requires r.divide == s.divide + [m] && r.divideHead == s.divideHead && r.divideTally == Pushed(s.divideTally)
    requires r.parsing == s.parsing && r.parseDone == s.parseDone
    requires m in s.msgs && !PastPosting(s.msgs[m].stage) && r.msgs[m].stage == InDivide(|s.divide|)
    ensures DivideInv(r)
  {
  }

  lemma DivideParsePop(s: State)
    requires DivideInv(s) && CanParsePop(s) && s.msgs[s.divide[s.divideHead]].stage == InDivide(s.divideHead)
    ensures DivideInv(DidParsePop(s))
  {
  }

  lemma DivideParsed(s: State, m: MsgId, stage: Stage)
    requires DivideInv(s) && IsParsing(s, m) && (stage.InWork? || stage.ParseFailed?)
    ensures DivideInv(ParsedTo(s, m, stage))
  {
    assert s.parsing == (s.parsing - {m}) + {m};
  }

  lemma DivideCounts(s: State, e: Event)
    requires DivideInv(s) && QueueEnabled(s, e) && CountsOnly(e)
    ensures DivideInv(QueueEffect(s, e))
  {
  }

  lemma DivideHandStep(s: State, e: Event)
    requires DivideInv(s) && HandInv(s.conns, s.msgs) && ReactorEnabled(s, e)
    requires e.AdmitDb? || e.AddWaiting? || e.RefuseWaiting? || e.DispatchFull? || e.DispatchClosed? || e.GiveBack?
    ensures DivideInv(ReactorEffect(s, e))
  {
    if e.AdmitDb? || e.AddWaiting? || e.RefuseWaiting? {
      DivideAtGate(s, e);
    } else {
      DivideRefused(s, e);
    }
  }

  lemma DivideAtGate(s: State, e: Event)
    requires DivideInv(s) && HandInv(s.conns, s.msgs) && ReactorEnabled(s, e)
    requires e.AdmitDb? || e.AddWaiting? || e.RefuseWaiting?
    ensures DivideInv(ReactorEffect(s, e))
  {
    assert AtInv(s.conns[e.c].at, e.c, s.msgs);
    DivideSame(s, ReactorEffect(s, e), e.c, s.conns[e.c].at.m);
  }

  lemma DivideRefused(s: State, e: Event)
    requires DivideInv(s) && HandInv(s.conns, s.msgs) && ReactorEnabled(s, e)
    requires e.DispatchFull? || e.DispatchClosed? || e.GiveBack?
    ensures DivideInv(ReactorEffect(s, e))
  {
    assert AtInv(s.conns[e.c].at, e.c, s.msgs);
    DivideSame(s, ReactorEffect(s, e), e.c, s.conns[e.c].at.m);
  }

  lemma DivideReactorStep(s: State, e: Event)
    requires DivideInv(s) && HandInv(s.conns, s.msgs) && ReactorEnabled(s, e)
    ensures DivideInv(ReactorEffect(s, e))
  {
    if e.DispatchOk? {
      assert AtInv(s.conns[e.c].at, e.c, s.msgs);
      DividePush(s, ReactorEffect(s, e), e.c, s.conns[e.c].at.m);
    } else if e.TakeSlot? {
      DivideSame(s, ReactorEffect(s, e), e.c, e.m);
    } else if !e.Open? && !e.Reactor? && !e.AdmitFast? && !e.Starve? {
      DivideHandStep(s, e);
    }
  }

  lemma DivideDrainPop(s: State)
    requires DivideInv(s) && QueueInv(s) && CanDrainPop(s)
    ensures DivideInv(DidDrainPop(s))
  {
    DivideSame(s, DidDrainPop(s), s.msgs[s.waiting[s.waitHead]].conn, s.waiting[s.waitHead]);
  }

  lemma DivideDrainAcquire(s: State)
    requires DivideInv(s) && QueueInv(s) && CanDrainAcquire(s)
    ensures DivideInv(DidDrainAcquire(s))
  {
    DivideSame(s, DidDrainAcquire(s), s.msgs[s.drain.m].conn, s.drain.m);
  }

  lemma DivideDrainGateClosed(s: State)
    requires DivideInv(s) && QueueInv(s) && CanDrainGateClosed(s)
    ensures DivideInv(DidDrainGateClosed(s))
  {
    DivideSame(s, DidDrainGateClosed(s), s.msgs[s.drain.m].conn, s.drain.m);
  }

  lemma DivideDrainPostClosed(s: State)
    requires DivideInv(s) && QueueInv(s) && CanDrainPost(s)
    ensures DivideInv(DidDrainPostClosed(s))
  {
    DivideSame(s, DidDrainPostClosed(s), s.msgs[s.drain.m].conn, s.drain.m);
  }

  lemma DivideDrainPost(s: State)
    requires DivideInv(s) && QueueInv(s) && CanDrainPost(s) && DivideOpen(s)
    ensures DivideInv(DidDrainPost(s))
  {
    DividePush(s, DidDrainPost(s), s.msgs[s.drain.m].conn, s.drain.m);
  }

  lemma DivideDrainStep(s: State, e: Event)
    requires DivideInv(s) && QueueInv(s) && QueueEnabled(s, e)
    requires e.DrainPop? || e.DrainAcquire? || e.DrainGateClosed? || e.DrainPost? || e.DrainPostClosed?
    ensures DivideInv(QueueEffect(s, e))
  {
    match e
    case DrainPop => DivideDrainPop(s);
    case DrainAcquire => DivideDrainAcquire(s);
    case DrainGateClosed => DivideDrainGateClosed(s);
    case DrainPost => DivideDrainPost(s);
    case DrainPostClosed => DivideDrainPostClosed(s);
  }

  lemma DivideReturnCredit(s: State, w: Thread)
    requires DivideInv(s) && WorkInv(s.msgs, s.rt.place, s.rt.workers) && RT.PlacesInv(s.rt) && CanReturnCredit(s, w)
    ensures DivideInv(DidReturnCredit(s, w))
  {
    var m := s.rt.workers[w].flow;
    FlowIsInWork(s, w);
    DivideSame(s, DidReturnCredit(s, w), s.msgs[m].conn, m);
  }

  lemma DivideFinishOne(s: State, w: Thread)
    requires DivideInv(s) && WorkInv(s.msgs, s.rt.place, s.rt.workers) && CanFinishOne(s, w)
    ensures DivideInv(DidFinishOne(s, w))
  {
    var m := s.rt.workers[w].flow;
    DivideSame(s, DidFinishOne(s, w), s.msgs[m].conn, m);
  }

  lemma DivideElsewhere(s: State, e: Event)
    requires !AtReactor(e) && PoolEnabled(s, e)
    requires e.DrainSchedule? || e.DrainStop? || e.Work? || e.CheckPaused? || e.CloseDivide? || e.CloseGate?
             || e.StopWaiting?
    ensures var r := PoolEffect(s, e);
      && r.msgs == s.msgs && r.divide == s.divide && r.divideHead == s.divideHead && r.divideTally == s.divideTally
      && r.parsing == s.parsing && r.parseDone == s.parseDone
  {
  }

  lemma DividePoolStep(s: State, e: Event)
    requires DivideInv(s) && QueueInv(s) && WorkInv(s.msgs, s.rt.place, s.rt.workers) && RT.PlacesInv(s.rt)
    requires !AtReactor(e) && PoolEnabled(s, e)
    ensures DivideInv(PoolEffect(s, e))
  {
    if e.DrainPop? || e.DrainAcquire? || e.DrainGateClosed? || e.DrainPost? || e.DrainPostClosed? {
      DivideDrainStep(s, e);
    } else if e.ParsePop? {
      DivideParsePop(s);
    } else if e.ParseOk? {
      DivideParseOk(s, e.m);
    } else if e.ParseDropped? || e.ParseThrow? {
      DivideParsed(s, e.m, ParseFailed);
    } else if CountsOnly(e) {
      DivideCounts(s, e);
    } else if e.ReturnCredit? {
      DivideReturnCredit(s, e.w);
    } else if e.FinishOne? {
      DivideFinishOne(s, e.w);
    } else {
      DivideElsewhere(s, e);
    }
  }

  lemma DivideParseOk(s: State, m: MsgId)
    requires DivideInv(s) && CanParseOk(s, m)
    ensures DivideInv(DidParseOk(s, m))
  {
    DivideParsed(s, m, InWork);
  }

  // ---------------------------------------------------------------- the runtime

  lemma RuntimeKeeps(rt: RT.Runtime, x: RT.Event)
    requires RT.Inv(rt) && RT.Enabled(rt, x) && RT.Careful(rt, x)
    ensures RT.Inv(RT.Step(rt, x))
  {
    CP.KeysStep(rt, x);
    CP.FlowsStep(rt, x);
  }

  lemma RuntimeStep(s: State, e: Event)
    requires RT.Inv(s.rt) && WorkInv(s.msgs, s.rt.place, s.rt.workers) && Enabled(s, e)
    ensures RT.Inv(Step(s, e).rt)
  {
    if AtReactor(e) {
      RuntimeOfReactor(s, e);
    } else if e.Work? {
      RuntimeKeeps(s.rt, e.e);
    } else if e.ParseOk? {
      RuntimeParseOk(s, e.m);
    } else if e.ReturnCredit? || e.FinishOne? || e.CheckPaused? {
      RuntimeSettling(s, e);
    } else {
      RuntimeOfPools(s, e);
    }
  }

  lemma RuntimeParseOk(s: State, m: MsgId)
    requires RT.Inv(s.rt) && WorkInv(s.msgs, s.rt.place, s.rt.workers) && CanParseOk(s, m)
    ensures RT.Inv(DidParseOk(s, m).rt)
  {
    RuntimeKeeps(s.rt, RT.Submit(m));
  }

  lemma RuntimeFinishOne(s: State, w: Thread)
    requires RT.Inv(s.rt) && CanFinishOne(s, w)
    ensures RT.Inv(DidFinishOne(s, w).rt)
  {
    RuntimeKeeps(s.rt, RT.GiveSlot(w, Finishing(s.conns[s.msgs[s.rt.workers[w].flow].conn].flow).yes));
  }

  lemma RuntimeSettling(s: State, e: Event)
    requires RT.Inv(s.rt) && WorkEnabled(s, e) && (e.ReturnCredit? || e.FinishOne? || e.CheckPaused?)
    ensures RT.Inv(WorkEffect(s, e).rt)
  {
    match e
    case ReturnCredit(w) => RuntimeKeeps(s.rt, RT.SettleCredit(w));
    case FinishOne(w) => RuntimeFinishOne(s, w);
    case CheckPaused(w) => RuntimeKeeps(s.rt, RT.Check(w));
  }

  lemma RuntimeOfReactor(s: State, e: Event)
    requires ReactorEnabled(s, e)
    ensures ReactorEffect(s, e).rt == s.rt
  {
  }

  lemma RuntimeOfPools(s: State, e: Event)
    requires QueueEnabled(s, e)
    requires !e.Work? && !e.ParseOk? && !e.ReturnCredit? && !e.FinishOne? && !e.CheckPaused?
    ensures QueueEffect(s, e).rt == s.rt
  {
  }

  // ---------------------------------------------------------------- every run

  lemma QueueStep(s: State, e: Event)
    requires QueueInv(s) && HandInv(s.conns, s.msgs) && WorkInv(s.msgs, s.rt.place, s.rt.workers) && RT.PlacesInv(s.rt)
    requires Enabled(s, e)
    ensures QueueInv(Step(s, e))
  {
    if AtReactor(e) {
      QueueReactorStep(s, e);
    } else {
      QueuePoolStep(s, e);
    }
  }

  lemma StepKeeps(s: State, e: Event)
    requires Inv(s) && Enabled(s, e)
    ensures Inv(Step(s, e))
  {
    AccountStep(s, e);
    QueueStep(s, e);
    WorkStep(s, e);
    NeedyStep(s, e);
    ControlStep(s, e);
    RuntimeStep(s, e);
    DivideStep(s, e);
    StreamsStep(s, e);
  }

  lemma DivideStep(s: State, e: Event)
    requires DivideInv(s) && QueueInv(s) && HandInv(s.conns, s.msgs) && WorkInv(s.msgs, s.rt.place, s.rt.workers)
    requires RT.PlacesInv(s.rt) && Enabled(s, e)
    ensures DivideInv(Step(s, e))
  {
    if AtReactor(e) {
      DivideReactorStep(s, e);
    } else {
      DividePoolStep(s, e);
    }
  }

  lemma StreamsStep(s: State, e: Event)
    requires StreamsInv(s.conns) && HandInv(s.conns, s.msgs) && Enabled(s, e)
    ensures StreamsInv(Step(s, e).conns)
  {
    if AtReactor(e) {
      StreamsReactorStep(s, e);
    } else {
      StreamsPoolStep(s, e);
    }
  }

  lemma StartKeeps(cfg: Config)
    requires cfg.window >= 1
    ensures Inv(NewState(cfg))
  {
    var s := NewState(cfg);
    CP.StartKeeps(cfg.workers, cfg.dbWorkers);
    assert forall w :: w in s.rt.workers ==> s.rt.workers[w].Idle?;
    StartAccounts(s, cfg);
  }

  lemma StartAccounts(s: State, cfg: Config)
    requires s == NewState(cfg).(rt := s.rt) && s.rt.place == map[] && cfg.window >= 1
    requires forall w :: w in s.rt.workers ==> s.rt.workers[w].Idle?
    ensures AccountInv(s) && QueueInv(s) && WorkInv(s.msgs, s.rt.place, s.rt.workers)
    ensures NeedyInv(s.conns, s.msgs, s.rt.workers) && ControlInv(s) && DivideInv(s) && StreamsInv(s.conns)
  {
  }

  lemma {:induction false} EveryRunKeeps(s: State, events: seq<Event>)
    requires Inv(s) && Possible(s, events)
    ensures Inv(Run(s, events))
    decreases |events|
  {
    if events != [] {
      StepKeeps(s, events[0]);
      EveryRunKeeps(Step(s, events[0]), events[1..]);
    }
  }
}
