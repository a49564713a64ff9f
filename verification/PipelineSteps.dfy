/** The pipeline step by step: what each step does to messages, gate, queues, connections and the coroutine runtime -
    and to nothing else - and what the text of a message decides. */
module PipelineSteps {
  import opened FlowWindow
  import opened RouteClassifier
  import opened ReaderControl
  import opened Pipeline
  import opened MessageSteps
  import opened Wrappers
  import RT = CoroutineRuntime

  // ---------------------------------------------------------------- messages

  predicate OfDrain(e: Event) {
    e.DrainPop? || e.DrainAcquire? || e.DrainGateClosed? || e.DrainPost? || e.DrainPostClosed?
  }

  /** The steps that bring one message further. */
  predicate MovesOne(e: Event) {
    OfHands(e) || OfDrain(e) || OfParse(e) || e.ReturnCredit? || e.FinishOne?
  }

  function InHandOf(s: State, c: ConnId): Option<MsgId> {
    if HasInHand(s, c) then Some(s.conns[c].at.m) else None
  }

  function WithDrainThread(s: State): Option<MsgId> {
    if DrainHolds(s) then Some(s.drain.m) else None
  }

  function FlowOf(s: State, w: Thread): Option<MsgId> {
    if WorksFor(s, w) then Some(s.rt.workers[w].flow) else None
  }

  function HeadOf(queue: seq<MsgId>, head: nat): Option<MsgId> {
    if head < |queue| then Some(queue[head]) else None
  }

  /** Which one: the one in the reactor's or the drain thread's hands, the head of a queue, or a worker's flow. */
  function Subject(s: State, e: Event): Option<MsgId> {
    match e
    case AdmitDb(c) => InHandOf(s, c)
    case AddWaiting(c) => InHandOf(s, c)
    case RefuseWaiting(c) => InHandOf(s, c)
    case DispatchOk(c) => InHandOf(s, c)
    case DispatchFull(c) => InHandOf(s, c)
    case DispatchClosed(c) => InHandOf(s, c)
    case GiveBack(c) => InHandOf(s, c)
    case DrainPop => HeadOf(s.waiting, s.waitHead)
    case DrainAcquire => WithDrainThread(s)
    case DrainGateClosed => WithDrainThread(s)
    case DrainPost => WithDrainThread(s)
    case DrainPostClosed => WithDrainThread(s)
    case ParsePop => HeadOf(s.divide, s.divideHead)
    case ParseOk(m) => Some(m)
    case ParseDropped(m) => Some(m)
    case ParseThrow(m) => Some(m)
    case ReturnCredit(w) => FlowOf(s, w)
    case FinishOne(w) => FlowOf(s, w)
    case _ => None
  }

  /** And where to. */
  function NewStage(s: State, e: Event): Stage {
    match e
    case AdmitDb(_) => Credited
    case AddWaiting(_) => Waiting(|s.waiting|)
    case DrainPop => Draining
    case DrainAcquire => DrainCredited
    case DrainGateClosed => if s.waitHead > 0 then Waiting(s.waitHead - 1) else Draining
    case DispatchOk(_) => InDivide(|s.divide|)
    case DrainPost => InDivide(|s.divide|)
    case DispatchClosed(_) => Unposted
    case DrainPostClosed => Unposted
    case ParsePop => Parsing
    case ParseOk(_) => InWork
    case ReturnCredit(_) => Settled
    case FinishOne(_) => Returned
    case GiveBack(_) => Returned
    case _ => if OfParse(e) then ParseFailed else TurnedDown
  }

  /** A message comes into being with the text that the reactor cut, and as a DB message exactly if a DB prefix begins
      that text; from then on only its stage changes. */
  ghost predicate MessagesDo(s: State, e: Event, r: State) {
    match e
    case TakeSlot(c, m) =>
      && c in s.conns && s.conns[c].at.Have? && m !in s.msgs
      && r.msgs == s.msgs[m := Msg(c, s.conns[c].at.text, IsDb(s.dbPrefixes, s.conns[c].at.text), InHand)]
    case _ =>
      match Subject(s, e)
      case Some(m) => m in s.msgs && r.msgs == s.msgs[m := s.msgs[m].(stage := NewStage(s, e))]
      case None => !MovesOne(e) && r.msgs == s.msgs
  }

  function Only(m: Option<MsgId>, yes: bool): set<MsgId> {
    if yes && m.Some? then {m.value} else {}
  }

  // ---------------------------------------------------------------- gate and queues

  predicate TakesCredit(e: Event) {
    e.AdmitDb? || e.DrainAcquire?
  }

  predicate GivesCredit(e: Event) {
    e.DispatchFull? || e.DispatchClosed? || e.DrainPostClosed? || e.ReturnCredit?
  }

  /** One credit comes back if the message holds one, the gate is open and below its limit. */
  ghost predicate GateDoes(s: State, e: Event, r: State) {
    var m := Subject(s, e);
    && r.gate.limit == s.gate.limit && r.gate.closed == (s.gate.closed || e.CloseGate?)
    && r.credit == s.credit + Only(m, TakesCredit(e)) - Only(m, GivesCredit(e))
    && r.gate.available ==
         if TakesCredit(e) then s.gate.available - 1
         else if Only(m, GivesCredit(e)) * s.credit != {} && !s.gate.closed && s.gate.available < s.gate.limit
         then s.gate.available + 1
         else s.gate.available
  }

  function OneMore(m: Option<MsgId>, yes: bool): seq<MsgId> {
    if yes && m.Some? then [m.value] else []
  }

  /** Both queues are logs: what is pushed goes last, what is taken is the head; only a message that meets a closed gate
      goes back to the front. */
  ghost predicate QueuesDo(s: State, e: Event, r: State) {
    && r.waiting == s.waiting + OneMore(Subject(s, e), e.AddWaiting?)
    && r.waitHead == s.waitHead + (if e.DrainPop? then 1 else if e.DrainGateClosed? then -1 else 0)
    && r.waitStopped == (s.waitStopped || e.StopWaiting?)
    && r.divide == s.divide + OneMore(Subject(s, e), e.DispatchOk? || e.DrainPost?)
    && r.divideHead == s.divideHead + (if e.ParsePop? then 1 else 0)
    && r.divideClosed == (s.divideClosed || e.CloseDivide?)
    && r.divideHigh == s.divideHigh && r.window == s.window && r.dbPrefixes == s.dbPrefixes
  }

  ghost predicate PoolsDo(s: State, e: Event, r: State) {
    && r.divideTally.adding == s.divideTally.adding
         + (if e.CountDivide? then 1 else if e.UncountDivide? || e.DispatchOk? || e.DrainPost? then -1 else 0)
    && r.parsing == s.parsing + Only(Subject(s, e), e.ParsePop?) - Only(Subject(s, e), OfParse(e) && !e.ParsePop?)
    && r.parseDone == s.parseDone
         + (if OfParse(e) && !e.ParsePop? then 1 else if e.FinishParse? then -1 else 0)
    && r.drain == NextOfDrain(s, e)
  }

  function NextOfDrain(s: State, e: Event): Drain {
    match e
    case DrainPop => if s.waitHead < |s.waiting| then DrainHas(s.waiting[s.waitHead]) else DrainIdle
    case DrainAcquire => if DrainHolds(s) then DrainMayPost(s.drain.m) else DrainIdle
    case DrainPost => if DrainHolds(s) then DrainMustSchedule(s.drain.m) else DrainIdle
    case DrainPostClosed => DrainIdle
    case DrainSchedule => DrainIdle
    case DrainGateClosed => DrainExited
    case DrainStop => DrainExited
    case _ => s.drain
  }

  // ---------------------------------------------------------------- connections and runtime

  function ConnOfMsg(s: State, m: Option<MsgId>): Option<ConnId> {
    if m.Some? && m.value in s.msgs then Some(s.msgs[m.value].conn) else None
  }

  /** The connection that a step is about. */
  function ConnOf(s: State, e: Event): Option<ConnId> {
    match e
    case Open(c) => Some(c)
    case Reactor(c, _) => Some(c)
    case TakeSlot(c, _) => Some(c)
    case AdmitFast(c) => Some(c)
    case Starve(c) => Some(c)
    case DrainPostClosed => ConnOfMsg(s, WithDrainThread(s))
    case DrainSchedule => ConnOfMsg(s, WithDrainThread(s))
    case FinishOne(w) => ConnOfMsg(s, FlowOf(s, w))
    case CheckPaused(w) => ConnOfMsg(s, FlowOf(s, w))
    case _ => if OfHands(e) then Some(e.c) else None
  }

  /** All others stay as they are. */
  ghost predicate ConnsDo(s: State, e: Event, r: State) {
    match ConnOf(s, e)
    case Some(c) => c in r.conns && r.conns == s.conns[c := r.conns[c]] && (e.Open? || c in s.conns)
    case None => r.conns == s.conns
  }

  ghost predicate Does(s: State, e: Event, r: State) {
    MessagesDo(s, e, r) && GateDoes(s, e, r) && QueuesDo(s, e, r) && PoolsDo(s, e, r) && ConnsDo(s, e, r)
  }

  lemma TakeSlotDoes(s: State, c: ConnId, m: MsgId)
    requires CanTakeSlot(s, c, m)
    ensures Does(s, TakeSlot(c, m), DidTakeSlot(s, c, m))
  {
  }

  lemma AdmitDbDoes(s: State, c: ConnId)
    requires CanAdmitDb(s, c)
    ensures Does(s, AdmitDb(c), DidAdmitDb(s, c))
  {
  }

  lemma AddWaitingDoes(s: State, c: ConnId)
    requires CanAddWaiting(s, c)
    ensures Does(s, AddWaiting(c), DidAddWaiting(s, c))
  {
  }

  lemma RefuseWaitingDoes(s: State, c: ConnId)
    requires CanRefuseWaiting(s, c)
    ensures Does(s, RefuseWaiting(c), DidRefuseWaiting(s, c))
  {
  }

  lemma GiveBackDoes(s: State, c: ConnId)
    requires CanGiveBack(s, c)
    ensures Does(s, GiveBack(c), DidGiveBack(s, c))
  {
  }

  lemma DispatchOkDoes(s: State, c: ConnId)
    requires CanDispatch(s, c) && DivideOpen(s)
    ensures Does(s, DispatchOk(c), DidDispatchOk(s, c))
  {
  }

  lemma DispatchFullDoes(s: State, c: ConnId)
    requires CanDispatch(s, c)
    ensures Does(s, DispatchFull(c), DidDispatchFull(s, c))
  {
  }

  lemma DispatchClosedDoes(s: State, c: ConnId)
    requires CanDispatch(s, c)
    ensures Does(s, DispatchClosed(c), DidDispatchClosed(s, c))
  {
  }

  lemma DrainPopDoes(s: State)
    requires CanDrainPop(s)
    ensures Does(s, DrainPop, DidDrainPop(s))
  {
  }

  lemma DrainAcquireDoes(s: State)
    requires CanDrainAcquire(s)
    ensures Does(s, DrainAcquire, DidDrainAcquire(s))
  {
  }

  lemma DrainGateClosedDoes(s: State)
    requires CanDrainGateClosed(s)
    ensures Does(s, DrainGateClosed, DidDrainGateClosed(s))
  {
  }

  lemma DrainPostDoes(s: State)
    requires CanDrainPost(s) && DivideOpen(s)
    ensures Does(s, DrainPost, DidDrainPost(s))
  {
  }

  lemma DrainPostClosedDoes(s: State)
    requires CanDrainPost(s)
    ensures Does(s, DrainPostClosed, DidDrainPostClosed(s))
  {
  }

  lemma DrainScheduleDoes(s: State)
    requires CanDrainSchedule(s)
    ensures Does(s, DrainSchedule, DidDrainSchedule(s))
  {
  }

  lemma ParsePopDoes(s: State)
    requires CanParsePop(s)
    ensures Does(s, ParsePop, DidParsePop(s))
  {
  }

  lemma ParseOkDoes(s: State, m: MsgId)
    requires CanParseOk(s, m)
    ensures Does(s, ParseOk(m), DidParseOk(s, m))
  {
  }

  lemma ReturnCreditDoes(s: State, w: Thread)
    requires CanReturnCredit(s, w)
    ensures Does(s, ReturnCredit(w), DidReturnCredit(s, w))
  {
  }

  lemma FinishOneDoes(s: State, w: Thread)
    requires CanFinishOne(s, w)
    ensures Does(s, FinishOne(w), DidFinishOne(s, w))
  {
  }

  lemma CheckPausedDoes(s: State, w: Thread)
    requires CanCheck(s, w)
    ensures Does(s, CheckPaused(w), DidCheck(s, w))
  {
  }

  lemma AtReactorDoes(s: State, e: Event)
    requires AtReactor(e) && ReactorEnabled(s, e)
    ensures Does(s, e, ReactorEffect(s, e))
  {
    if OfHands(e) {
      HandsDo(s, e);
    } else if e.TakeSlot? {
      TakeSlotDoes(s, e.c, e.m);
    } else {
      ReadingDoes(s, e);
    }
  }

  lemma HandsDo(s: State, e: Event)
    requires OfHands(e) && ReactorEnabled(s, e)
    ensures Does(s, e, ReactorEffect(s, e))
  {
    match e
    case AdmitDb(c) => AdmitDbDoes(s, c);
    case AddWaiting(c) => AddWaitingDoes(s, c);
    case RefuseWaiting(c) => RefuseWaitingDoes(s, c);
    case DispatchOk(c) => DispatchOkDoes(s, c);
    case DispatchFull(c) => DispatchFullDoes(s, c);
    case DispatchClosed(c) => DispatchClosedDoes(s, c);
    case GiveBack(c) => GiveBackDoes(s, c);
  }

  lemma ReadingDoes(s: State, e: Event)
    requires e.Open? || e.Reactor? || e.AdmitFast? || e.Starve?
    requires ReactorEnabled(s, e)
    ensures Does(s, e, ReactorEffect(s, e))
  {
  }

  lemma InQueuesDoes(s: State, e: Event)
    requires !AtReactor(e) && !AtWork(e) && QueueEnabled(s, e)
    ensures Does(s, e, QueueEffect(s, e))
  {
    match e
    case DrainPop => DrainPopDoes(s);
    case DrainAcquire => DrainAcquireDoes(s);
    case DrainGateClosed => DrainGateClosedDoes(s);
    case DrainPost => DrainPostDoes(s);
    case DrainPostClosed => DrainPostClosedDoes(s);
    case DrainSchedule => DrainScheduleDoes(s);
    case ParsePop => ParsePopDoes(s);
    case ParseOk(m) => ParseOkDoes(s, m);
    case ParseDropped(m) => ParseFailedDoes(s, e, m);
    case ParseThrow(m) => ParseFailedDoes(s, e, m);
    case _ => ClosingDoes(s, e);
  }

  lemma ParseFailedDoes(s: State, e: Event, m: MsgId)
    requires IsParsing(s, m) && (e == ParseDropped(m) || e == ParseThrow(m))
    ensures Does(s, e, ParsedTo(s, m, ParseFailed))
  {
  }

  lemma ClosingDoes(s: State, e: Event)
    requires e.DrainStop? || e.FinishParse? || e.CountDivide? || e.UncountDivide?
             || e.CloseDivide? || e.CloseGate? || e.StopWaiting?
    requires QueueEnabled(s, e)
    ensures Does(s, e, QueueEffect(s, e))
  {
  }

  lemma AtWorkDoes(s: State, e: Event)
    requires AtWork(e) && WorkEnabled(s, e)
    ensures Does(s, e, WorkEffect(s, e))
  {
    match e
    case Work(x) =>
    case ReturnCredit(w) => ReturnCreditDoes(s, w);
    case FinishOne(w) => FinishOneDoes(s, w);
    case CheckPaused(w) => CheckPausedDoes(s, w);
  }

  /** Every step does just that. */
  lemma StepDoes(s: State, e: Event)
    requires Enabled(s, e)
    ensures Does(s, e, Step(s, e))
  {
    if AtReactor(e) {
      AtReactorDoes(s, e);
    } else if AtWork(e) {
      AtWorkDoes(s, e);
    } else {
      InQueuesDoes(s, e);
    }
  }

  // ---------------------------------------------------------------- one connection

  /** Where a step leaves the reactor. */
  function NextAt(e: Event, at: At): At {
    match e
    case TakeSlot(_, m) => if at.Have? then Hand(m, at.text) else at
    case AdmitFast(_) => if at.Hand? then Admitted(at.m, at.text) else at
    case AdmitDb(_) => if at.Hand? then Admitted(at.m, at.text) else at
    case Starve(_) => if at.Hand? then Starved(at.m, at.text) else at
    case AddWaiting(_) => if at.Starved? then Parked(at.m) else at
    case RefuseWaiting(_) => if at.Starved? then Refused(at.m, at.text) else at
    case DispatchFull(_) => if at.Admitted? then Refused(at.m, at.text) else at
    case DispatchOk(_) => Top
    case DispatchClosed(_) => Out
    case GiveBack(_) => if at.Refused? then PutBack(at.text) else at
    case _ => at
  }

  /** A worker that checks was told to resume. */
  predicate ChecksForResume(s: State, e: Event) {
    e.CheckPaused? && e.w in s.rt.workers && s.rt.workers[e.w].Checking? && s.rt.workers[e.w].needResume
  }

  /** What a step that is not the reactor's own does to its connection: nobody but the reactor pauses, reads or closes,
      except that a closed parse pool closes; a resume is scheduled by the drain thread once a message is posted, and by
      a worker that was told so and finds reading not paused. */
  ghost predicate Touches(s: State, e: Event, x: Conn, d: Conn) {
    && d.at == NextAt(e, x.at)
    && d.connected == (x.connected && !e.DispatchClosed?)
    && d.paused == x.paused && d.buffer == x.buffer && d.received == x.received && d.pausedFor == x.pausedFor
    && d.taken == x.taken
         + (if (e.AddWaiting? && x.at.Starved?) || (e.DispatchOk? && x.at.Admitted?) then [x.at.text] else [])
    && d.resumeBucket == (x.resumeBucket || e.DrainSchedule? || (ChecksForResume(s, e) && !x.paused))
    && d.resumeLocal == x.resumeLocal && d.retryBucket == x.retryBucket && d.retryLocal == x.retryLocal
  }

  /** And to its window: one slot more for a message that is taken, one less for one given back or ended; the end of a
      full window owes a resume. */
  ghost predicate TouchesWindow(e: Event, x: Flow, d: Flow) {
    var less := e.GiveBack? || e.FinishOne?;
    && d.window == x.window
    && d.inFlight == x.inFlight + (if e.TakeSlot? then 1 else if less && x.inFlight > 0 then -1 else 0)
    && d.full == (if e.TakeSlot? then d.inFlight >= x.window else if !less then x.full
                  else x.full && (d.inFlight >= x.window || (e.FinishOne? && x.resumePending)))
    && d.resumePending == (x.resumePending || (e.FinishOne? && x.full && d.inFlight < x.window))
  }

  /** A step at a connection that is not its reactor's own. */
  predicate AtConnection(e: Event) {
    || e.TakeSlot? || e.AdmitFast? || e.Starve? || OfHands(e) || e.DrainPostClosed? || e.DrainSchedule? || e.FinishOne?
    || e.CheckPaused?
  }

  ghost predicate TouchesOne(s: State, e: Event, r: State) {
    match ConnOf(s, e)
    case Some(c) => c in s.conns && c in r.conns && Touches(s, e, s.conns[c], r.conns[c])
                    && TouchesWindow(e, s.conns[c].flow, r.conns[c].flow)
    case None => false
  }

  lemma DispatchTouches(s: State, e: Event)
    requires (e.DispatchOk? || e.DispatchFull? || e.DispatchClosed?) && ReactorEnabled(s, e)
    ensures TouchesOne(s, e, ReactorEffect(s, e))
  {
  }

  lemma AdmissionTouches(s: State, e: Event)
    requires (e.AdmitDb? || e.AddWaiting? || e.RefuseWaiting? || e.GiveBack?) && ReactorEnabled(s, e)
    ensures TouchesOne(s, e, ReactorEffect(s, e))
  {
  }

  lemma EntryTouches(s: State, e: Event)
    requires (e.TakeSlot? || e.AdmitFast? || e.Starve?) && ReactorEnabled(s, e)
    ensures TouchesOne(s, e, ReactorEffect(s, e))
  {
  }

  lemma DrainTouches(s: State, e: Event)
    requires (e.DrainPostClosed? || e.DrainSchedule?) && QueueEnabled(s, e)
    ensures TouchesOne(s, e, QueueEffect(s, e))
  {
  }

  lemma FinishTouches(s: State, w: Thread)
    requires CanFinishOne(s, w)
    ensures TouchesOne(s, FinishOne(w), DidFinishOne(s, w))
  {
  }

  lemma CheckTouches(s: State, w: Thread)
    requires CanCheck(s, w)
    ensures TouchesOne(s, CheckPaused(w), DidCheck(s, w))
  {
    var c := s.msgs[s.rt.workers[w].flow].conn;
    CheckTouchesOne(s, w, s.conns[c]);
    assert DidCheck(s, w).conns == s.conns[c := AfterCheck(s.conns[c], w, s.rt.workers[w].needResume)];
  }

  lemma CheckTouchesOne(s: State, w: Thread, x: Conn)
    requires CanCheck(s, w)
    ensures var d := AfterCheck(x, w, s.rt.workers[w].needResume);
      Touches(s, CheckPaused(w), x, d) && TouchesWindow(CheckPaused(w), x.flow, d.flow)
  {
    var e, needResume := CheckPaused(w), s.rt.workers[w].needResume;
    var d := AfterCheck(x, w, needResume);
    assert d == x.(needy := d.needy, resumeBucket := d.resumeBucket, raced := d.raced);
    assert d.resumeBucket == (x.resumeBucket || (needResume && !x.paused));
    assert NextAt(e, x.at) == x.at && ChecksForResume(s, e) == needResume;
  }

  /** What other threads do to a connection is just that; what its reactor does is told by `ReaderControl`. */
  lemma ConnectionIsTouched(s: State, e: Event)
    requires Enabled(s, e) && AtConnection(e)
    ensures TouchesOne(s, e, Step(s, e))
  {
    if e.DispatchOk? || e.DispatchFull? || e.DispatchClosed? {
      DispatchTouches(s, e);
    } else if OfHands(e) {
      AdmissionTouches(s, e);
    } else if e.TakeSlot? || e.AdmitFast? || e.Starve? {
      EntryTouches(s, e);
    } else if e.FinishOne? {
      FinishTouches(s, e.w);
    } else if e.CheckPaused? {
      CheckTouches(s, e.w);
    } else {
      DrainTouches(s, e);
    }
  }

  // ---------------------------------------------------------------- the runtime inside the pipeline

  /** Worker w ends the flow of a full window to which no resume is owed. */
  predicate EndsFullWindow(s: State, w: Thread) {
    WorksFor(s, w) && var f := s.conns[s.msgs[s.rt.workers[w].flow].conn].flow;
    f.full && !f.resumePending && f.inFlight - (if f.inFlight > 0 then 1 else 0) < f.window
  }

  function AtRuntime(s: State, e: Event): Option<RT.Event> {
    match e
    case Work(x) => Some(x)
    case ParseOk(m) => Some(RT.Submit(m))
    case ReturnCredit(w) => Some(RT.SettleCredit(w))
    case FinishOne(w) => Some(RT.GiveSlot(w, EndsFullWindow(s, w)))
    case CheckPaused(w) => Some(RT.Check(w))
    case _ => None
  }

  lemma RuntimeInQueues(s: State, e: Event)
    requires !AtReactor(e) && !AtWork(e) && QueueEnabled(s, e)
    ensures match AtRuntime(s, e)
            case Some(x) => e.ParseOk? && QueueEffect(s, e).rt == RT.PushFlow(s.rt, e.m)
            case None => QueueEffect(s, e).rt == s.rt
  {
  }

  lemma RuntimeAtReactor(s: State, e: Event)
    requires AtReactor(e) && ReactorEnabled(s, e)
    ensures ReactorEffect(s, e).rt == s.rt
  {
  }

  lemma RuntimeAtWork(s: State, e: Event)
    requires AtWork(e) && WorkEnabled(s, e)
    ensures var x := AtRuntime(s, e);
      x.Some? && RT.Enabled(s.rt, x.value) && WorkEffect(s, e).rt == RT.Step(s.rt, x.value)
  {
  }

  /** The coroutine runtime takes just its own steps: a parsed message is submitted to it as a flow, the end of a flow
      is told whether it ends a full window, and nobody else touches it. */
  lemma RuntimeTakesSteps(s: State, e: Event)
    requires Enabled(s, e) && WorkInv(s.msgs, s.rt.place, s.rt.workers)
    ensures match AtRuntime(s, e)
            case Some(x) => RT.Enabled(s.rt, x) && Step(s, e).rt == RT.Step(s.rt, x)
            case None => Step(s, e).rt == s.rt
  {
    if AtReactor(e) {
      RuntimeAtReactor(s, e);
    } else if AtWork(e) {
      RuntimeAtWork(s, e);
    } else {
      RuntimeInQueues(s, e);
    }
  }

  // ---------------------------------------------------------------- texts

  /** A message is a DB message exactly if a DB prefix begins its text. */
  ghost predicate Labelled(s: State) {
    forall m :: m in s.msgs ==> (s.msgs[m].db <==> IsDb(s.dbPrefixes, s.msgs[m].text))
  }

  predicate InHands(at: At) {
    at.Hand? || at.Admitted? || at.Starved? || at.Refused?
  }

  /** And its text is the one that its reactor holds. */
  ghost predicate HandTexts(s: State) {
    forall c :: c in s.conns && InHands(s.conns[c].at) ==>
      s.conns[c].at.m in s.msgs && s.msgs[s.conns[c].at.m].text == s.conns[c].at.text
  }

  lemma LabelsStay(s: State, e: Event)
    requires Enabled(s, e) && Labelled(s)
    ensures Labelled(Step(s, e))
  {
    StepDoes(s, e);
    DoingKeepsLabels(s, e, Step(s, e));
  }

  lemma DoingKeepsLabels(s: State, e: Event, r: State)
    requires MessagesDo(s, e, r) && Labelled(s) && r.dbPrefixes == s.dbPrefixes
    ensures Labelled(r)
  {
  }

  lemma DoingKeepsTexts(s: State, e: Event, r: State)
    requires MessagesDo(s, e, r)
    ensures forall m :: m in s.msgs ==> m in r.msgs && r.msgs[m].text == s.msgs[m].text
    ensures e.TakeSlot? && e.c in s.conns && s.conns[e.c].at.Have? ==>
              e.m in r.msgs && r.msgs[e.m].text == s.conns[e.c].at.text
  {
  }

  lemma OwnStepHandsNothing(c: Conn, r: ReactorStep)
    requires Can(c, r)
    ensures !InHands(Do(c, r).at) || Do(c, r).at == c.at
  {
    ReactorSteps(c, r);
  }

  lemma NextAtHands(e: Event, at: At)
    ensures var n := NextAt(e, at);
      InHands(n) ==> (InHands(at) && n.m == at.m && n.text == at.text)
                     || (e.TakeSlot? && at.Have? && n.m == e.m && n.text == at.text)
  {
  }

  lemma HandTextsStay(s: State, e: Event)
    requires Enabled(s, e) && HandTexts(s)
    ensures HandTexts(Step(s, e))
  {
    var r := Step(s, e);
    StepDoes(s, e);
    DoingKeepsTexts(s, e, r);
    forall c | c in r.conns && InHands(r.conns[c].at)
      ensures r.conns[c].at.m in r.msgs && r.msgs[r.conns[c].at.m].text == r.conns[c].at.text
    {
      HandOf(s, e, c);
    }
  }

  /** What a reactor holds after a step, it held before, or has just taken. */
  lemma HandOf(s: State, e: Event, c: ConnId)
    requires Enabled(s, e) && ConnsDo(s, e, Step(s, e)) && c in Step(s, e).conns && InHands(Step(s, e).conns[c].at)
    ensures c in s.conns
    ensures var at, was := Step(s, e).conns[c].at, s.conns[c].at;
      || (InHands(was) && at.m == was.m && at.text == was.text)
      || (e.TakeSlot? && e.c == c && was.Have? && at.m == e.m && at.text == was.text)
  {
    if AtConnection(e) {
      ConnectionIsTouched(s, e);
      if ConnOf(s, e) == Some(c) {
        NextAtHands(e, s.conns[c].at);
      }
    } else if e.Reactor? && e.c == c {
      OwnStepHandsNothing(s.conns[c], e.r);
    }
  }
}
