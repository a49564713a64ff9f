/** The whole request pipeline as one step system: reactors, DB admission, the waiting queue and its drain thread,
    the parse pool, and the coroutine runtime, for any number of connections, messages and threads.  Of a shutdown's
    steps in the runtime, runs have those that find no suspension in progress. */
module Pipeline {
  import opened FlowWindow
  import opened CreditGate
  import opened RouteClassifier
  import opened ReaderControl
  import opened IdleCount
  import opened RT = CoroutineRuntime

  type ConnId = nat

  /** How far a message has come since it took its window slot. */
  datatype Stage =
    | InHand | Credited                          // in the reactor's hands, without and with a credit
    | Waiting(ticket: nat)                       // in the DB waiting queue
    | Draining | DrainCredited                   // in the drain thread's hands
    | InDivide(ticket: nat) | Parsing
    | InWork                                     // in the coroutine runtime
    | Settled                                    // over, credit given back, slot not yet
    | ParseFailed                                // the parse threw, or the work pool was closed
    | Unposted                                   // the parse pool was closed
    | TurnedDown                                 // on_message said Full, slot not yet given back
    | Returned                                   // slot given back

  datatype Msg = Msg(conn: ConnId, text: string, db: bool, stage: Stage)

  datatype Drain =
    | DrainIdle | DrainHas(m: MsgId) | DrainMayPost(m: MsgId) | DrainMustSchedule(m: MsgId) | DrainExited

  /** Queues are logs of pushes with the position of the head.  `credit` are the messages whose token has not been
      released; `parsing` are those in the hands of parse workers, and `parseDone` is the number of parse workers that
      are done with one and have not called `finish_task` yet. */
  datatype State = State(
    window: int, dbPrefixes: seq<string>, divideHigh: nat,
    conns: map<ConnId, Conn>, msgs: map<MsgId, Msg>, gate: Gate, credit: set<MsgId>,
    waiting: seq<MsgId>, waitHead: nat, waitStopped: bool, drain: Drain,
    divide: seq<MsgId>, divideHead: nat, divideClosed: bool, divideTally: Tally,
    parsing: set<MsgId>, parseDone: nat, rt: Runtime)

  datatype Config = Config(window: int, limit: nat, dbPrefixes: seq<string>, divideHigh: nat,
                           workers: nat, dbWorkers: nat)

  function NewState(cfg: Config): State {
    State(cfg.window, cfg.dbPrefixes, cfg.divideHigh, map[], map[], NewGate(cfg.limit), {},
          [], 0, false, DrainIdle, [], 0, false, NO_TASKS, {}, 0, NewRuntime(cfg.workers, cfg.dbWorkers))
  }

  /** Alternatives of one source branch are separate steps whose guards exclude each other. */
  datatype Event =
    | Open(c: ConnId)
    | Reactor(c: ConnId, r: ReactorStep)
    | TakeSlot(c: ConnId, m: MsgId)
    | AdmitFast(c: ConnId) | AdmitDb(c: ConnId) | Starve(c: ConnId)
    | AddWaiting(c: ConnId) | RefuseWaiting(c: ConnId)
    | CountDivide | UncountDivide
    | DispatchOk(c: ConnId) | DispatchFull(c: ConnId) | DispatchClosed(c: ConnId)
    | GiveBack(c: ConnId)
    | DrainPop | DrainAcquire | DrainGateClosed | DrainPost | DrainPostClosed | DrainSchedule | DrainStop
    | ParsePop | ParseOk(m: MsgId) | ParseDropped(m: MsgId) | ParseThrow(m: MsgId) | FinishParse
    | Work(e: RT.Event)
    | ReturnCredit(w: Thread) | FinishOne(w: Thread) | CheckPaused(w: Thread)
    | CloseDivide | CloseGate | StopWaiting

  // ---------------------------------------------------------------- steps

  predicate DivideFull(s: State) {
    |s.divide| - s.divideHead >= s.divideHigh
  }

  /** The reactor of c is at a point where it holds message m. */
  predicate HasInHand(s: State, c: ConnId) {
    && c in s.conns
    && (s.conns[c].at.Hand? || s.conns[c].at.Admitted? || s.conns[c].at.Starved? || s.conns[c].at.Refused?)
    && s.conns[c].at.m in s.msgs
  }

  predicate DrainHolds(s: State) {
    && (s.drain.DrainHas? || s.drain.DrainMayPost? || s.drain.DrainMustSchedule?)
    && s.drain.m in s.msgs && s.msgs[s.drain.m].conn in s.conns
  }

  /** Worker w works for a message that is known, on a known connection. */
  predicate WorksFor(s: State, w: Thread) {
    && w in s.rt.workers
    && (s.rt.workers[w].Ending? || s.rt.workers[w].GivingSlot? || s.rt.workers[w].Checking?)
    && s.rt.workers[w].flow in s.msgs && s.msgs[s.rt.workers[w].flow].conn in s.conns
  }

  function SetConn(s: State, c: ConnId, x: Conn): State {
    s.(conns := s.conns[c := x])
  }

  /** Message m moves on, and with it the reactor of its connection c. */
  function Advance(s: State, c: ConnId, x: Conn, m: MsgId, stage: Stage): State
    requires m in s.msgs
  {
    s.(conns := s.conns[c := x], msgs := s.msgs[m := s.msgs[m].(stage := stage)])
  }

  function SetStage(s: State, m: MsgId, stage: Stage): State
    requires m in s.msgs
  {
    s.(msgs := s.msgs[m := s.msgs[m].(stage := stage)])
  }

  function TakeCredit(s: State, m: MsgId): State {
    s.(credit := s.credit + {m}, gate := Acquired(s.gate))
  }

  /** `token->release()`: only a token that has not been released reaches the gate. */
  function ReleaseCredit(s: State, m: MsgId): State {
    s.(credit := s.credit - {m}, gate := if m in s.credit then Released(s.gate) else s.gate)
  }

  // `handle_read` has cut a message and `try_take` finds a slot

  predicate CanTakeSlot(s: State, c: ConnId, m: MsgId) {
    c in s.conns && s.conns[c].at.Have? && Taking(s.conns[c].flow).yes && m !in s.msgs && !WithDrain(s.drain, m)
  }

  function DidTakeSlot(s: State, c: ConnId, m: MsgId): State
    requires CanTakeSlot(s, c, m)
  {
    var x := s.conns[c];
    SetConn(s, c, TookSlot(x, m)).(msgs := s.msgs[m := Msg(c, x.at.text, IsDb(s.dbPrefixes, x.at.text), InHand)])
  }

  // `on_message`: classification and, for a DB message, `try_acquire`

  predicate CanAdmitFast(s: State, c: ConnId) {
    HasInHand(s, c) && s.conns[c].at.Hand? && !s.msgs[s.conns[c].at.m].db
  }

  predicate CanAdmitDb(s: State, c: ConnId) {
    HasInHand(s, c) && s.conns[c].at.Hand? && s.msgs[s.conns[c].at.m].db && CanAcquire(s.gate)
  }

  function DidAdmitDb(s: State, c: ConnId): State
    requires CanAdmitDb(s, c)
  {
    var m := s.conns[c].at.m;
    TakeCredit(Advance(s, c, PastAdmission(s.conns[c]), m, Credited), m)
  }

  predicate CanStarve(s: State, c: ConnId) {
    HasInHand(s, c) && s.conns[c].at.Hand? && s.msgs[s.conns[c].at.m].db && !CanAcquire(s.gate)
  }

  // `add_waiting_task`

  predicate CanAddWaiting(s: State, c: ConnId) {
    HasInHand(s, c) && s.conns[c].at.Starved? && !s.waitStopped
  }

  function DidAddWaiting(s: State, c: ConnId): State
    requires CanAddWaiting(s, c)
  {
    var m := s.conns[c].at.m;
    Advance(s, c, ParkedOne(s.conns[c]), m, Waiting(|s.waiting|)).(waiting := s.waiting + [m])
  }

  predicate CanRefuseWaiting(s: State, c: ConnId) {
    HasInHand(s, c) && s.conns[c].at.Starved? && s.waitStopped
  }

  function DidRefuseWaiting(s: State, c: ConnId): State
    requires CanRefuseWaiting(s, c)
  {
    var m := s.conns[c].at.m;
    Advance(s, c, TurnedAway(s.conns[c]), m, TurnedDown)
  }

  // `try_add_task`; a refused message gives its credit back, a closed pool closes the connection

  predicate CanDispatch(s: State, c: ConnId) {
    HasInHand(s, c) && s.conns[c].at.Admitted?
  }

  /** A push to the parse queue comes after its count. */
  predicate DivideOpen(s: State) {
    !s.divideClosed && s.divideTally.adding > 0
  }

  function PushDivide(s: State, m: MsgId): State
    requires s.divideTally.adding > 0
  {
    s.(divide := s.divide + [m], divideTally := Pushed(s.divideTally))
  }

  function DidDispatchOk(s: State, c: ConnId): State
    requires CanDispatch(s, c) && DivideOpen(s)
  {
    var m := s.conns[c].at.m;
    PushDivide(Advance(s, c, DispatchedOne(s.conns[c]), m, InDivide(|s.divide|)), m)
  }

  function DidDispatchFull(s: State, c: ConnId): State
    requires CanDispatch(s, c)
  {
    var m := s.conns[c].at.m;
    ReleaseCredit(Advance(s, c, TurnedAway(s.conns[c]), m, TurnedDown), m)
  }

  function DidDispatchClosed(s: State, c: ConnId): State
    requires CanDispatch(s, c)
  {
    var m := s.conns[c].at.m;
    ReleaseCredit(Advance(s, c, s.conns[c].(connected := false, at := Out), m, Unposted), m)
  }

  // `release_slot` after Full

  predicate CanGiveBack(s: State, c: ConnId) {
    HasInHand(s, c) && s.conns[c].at.Refused?
  }

  function DidGiveBack(s: State, c: ConnId): State
    requires CanGiveBack(s, c)
  {
    var m := s.conns[c].at.m;
    Advance(s, c, ReleasedSlot(s.conns[c]), m, Returned)
  }

  // the drain thread; its `add_task` blocks while the parse queue is full

  predicate CanDrainPop(s: State) {
    s.drain.DrainIdle? && !s.waitStopped && s.waitHead < |s.waiting| && s.waiting[s.waitHead] in s.msgs
  }

  function DidDrainPop(s: State): State
    requires CanDrainPop(s)
  {
    var m := s.waiting[s.waitHead];
    SetStage(s, m, Draining).(waitHead := s.waitHead + 1, drain := DrainHas(m))
  }

  predicate CanDrainAcquire(s: State) {
    DrainHolds(s) && s.drain.DrainHas? && CanAcquire(s.gate)
  }

  function DidDrainAcquire(s: State): State
    requires CanDrainAcquire(s)
  {
    TakeCredit(SetStage(s, s.drain.m, DrainCredited), s.drain.m).(drain := DrainMayPost(s.drain.m))
  }

  /** With the gate closed the message goes back to the front of the queue and the drain thread ends. */
  predicate CanDrainGateClosed(s: State) {
    DrainHolds(s) && s.drain.DrainHas? && s.gate.closed && s.waitHead > 0
  }

  function DidDrainGateClosed(s: State): State
    requires CanDrainGateClosed(s)
  {
    SetStage(s, s.drain.m, Waiting(s.waitHead - 1)).(waitHead := s.waitHead - 1, drain := DrainExited)
  }

  predicate CanDrainPost(s: State) {
    DrainHolds(s) && s.drain.DrainMayPost?
  }

  function DidDrainPost(s: State): State
    requires CanDrainPost(s) && DivideOpen(s)
  {
    var m := s.drain.m;
    PushDivide(SetStage(s, m, InDivide(|s.divide|)), m).(drain := DrainMustSchedule(m))
  }

  /** A closed parse pool: the credit goes back, the message is dropped with its slot. */
  function DidDrainPostClosed(s: State): State
    requires CanDrainPost(s)
  {
    var m := s.drain.m;
    var c := s.msgs[m].conn;
    ReleaseCredit(Advance(s, c, DroppedOne(s.conns[c], m), m, Unposted), m).(drain := DrainIdle)
  }

  predicate CanDrainSchedule(s: State) {
    DrainHolds(s) && s.drain.DrainMustSchedule?
  }

  function DidDrainSchedule(s: State): State
    requires CanDrainSchedule(s)
  {
    var c := s.msgs[s.drain.m].conn;
    SetConn(s, c, Rescheduled(s.conns[c], s.drain.m)).(drain := DrainIdle)
  }

  // parse workers; a parse that throws, or a closed work pool, drops the message with its slot and credit

  predicate CanParsePop(s: State) {
    s.divideHead < |s.divide| && s.divide[s.divideHead] in s.msgs
  }

  function DidParsePop(s: State): State
    requires CanParsePop(s)
  {
    var m := s.divide[s.divideHead];
    SetStage(s, m, Parsing).(divideHead := s.divideHead + 1, parsing := s.parsing + {m})
  }

  predicate IsParsing(s: State, m: MsgId) {
    m in s.msgs && s.msgs[m].stage.Parsing?
  }

  /** The parse worker of m is done with it. */
  function ParsedTo(s: State, m: MsgId, stage: Stage): State
    requires m in s.msgs
  {
    SetStage(s, m, stage).(parsing := s.parsing - {m}, parseDone := s.parseDone + 1)
  }

  predicate CanParseOk(s: State, m: MsgId) {
    IsParsing(s, m) && !s.rt.workClosed && s.rt.workTally.adding > 0
  }

  function DidParseOk(s: State, m: MsgId): State
    requires CanParseOk(s, m)
  {
    ParsedTo(s, m, InWork).(rt := PushFlow(s.rt, m))
  }

  function DidFinishParse(s: State): State
    requires s.parseDone > 0
  {
    s.(parseDone := s.parseDone - 1, divideTally := TaskFinished(s.divideTally))
  }

  // work workers at the end of a task that did not suspend

  predicate CanReturnCredit(s: State, w: Thread) {
    WorksFor(s, w) && s.rt.workers[w].Ending?
  }

  function DidReturnCredit(s: State, w: Thread): State
    requires CanReturnCredit(s, w)
  {
    var m := s.rt.workers[w].flow;
    ReleaseCredit(SetStage(s, m, Settled), m).(rt := CreditSettled(s.rt, w))
  }

  predicate CanFinishOne(s: State, w: Thread) {
    WorksFor(s, w) && s.rt.workers[w].GivingSlot?
  }

  function DidFinishOne(s: State, w: Thread): State
    requires CanFinishOne(s, w)
  {
    var m := s.rt.workers[w].flow;
    var c := s.msgs[m].conn;
    Advance(s, c, Finished(s.conns[c], m, w), m, Returned).(
      rt := SlotGiven(s.rt, w, Finishing(s.conns[c].flow).yes))
  }

  predicate CanCheck(s: State, w: Thread) {
    WorksFor(s, w) && s.rt.workers[w].Checking?
  }

  function AfterCheck(x: Conn, w: Thread, needResume: bool): Conn {
    if needResume then Checked(x, w) else x
  }

  function DidCheck(s: State, w: Thread): State
    requires CanCheck(s, w)
  {
    var c := s.msgs[s.rt.workers[w].flow].conn;
    SetConn(s, c, AfterCheck(s.conns[c], w, s.rt.workers[w].needResume)).(rt := Become(s.rt, w, RT.Done))
  }

  /** Steps of the runtime that concern it alone. */
  predicate Internal(x: RT.Event) {
    !x.Submit? && !x.SettleCredit? && !x.GiveSlot? && !x.Check?
  }

  // ---------------------------------------------------------------- the step system, by the threads that step

  /** Steps of a reactor. */
  ghost predicate ReactorEnabled(s: State, e: Event) {
    match e
    case Open(c) => c !in s.conns
    case Reactor(c, r) => c in s.conns && Can(s.conns[c], r)
    case TakeSlot(c, m) => CanTakeSlot(s, c, m)
    case AdmitFast(c) => CanAdmitFast(s, c)
    case AdmitDb(c) => CanAdmitDb(s, c)
    case Starve(c) => CanStarve(s, c)
    case AddWaiting(c) => CanAddWaiting(s, c)
    case RefuseWaiting(c) => CanRefuseWaiting(s, c)
    case DispatchOk(c) => CanDispatch(s, c) && DivideOpen(s) && !DivideFull(s)
    case DispatchFull(c) => CanDispatch(s, c) && !s.divideClosed && DivideFull(s)
    case DispatchClosed(c) => CanDispatch(s, c) && s.divideClosed
    case GiveBack(c) => CanGiveBack(s, c)
    case _ => false
  }

  /** Steps of the drain thread, the parse pool and the closing server. */
  ghost predicate QueueEnabled(s: State, e: Event) {
    match e
    case CountDivide => true
    case UncountDivide => s.divideTally.adding > 0
    case DrainPop => CanDrainPop(s)
    case DrainAcquire => CanDrainAcquire(s)
    case DrainGateClosed => CanDrainGateClosed(s)
    case DrainPost => CanDrainPost(s) && DivideOpen(s) && !DivideFull(s)
    case DrainPostClosed => CanDrainPost(s) && s.divideClosed
    case DrainSchedule => CanDrainSchedule(s)
    case DrainStop => s.drain.DrainIdle? && s.waitStopped
    case ParsePop => CanParsePop(s)
    case ParseOk(m) => CanParseOk(s, m)
    case ParseDropped(m) => IsParsing(s, m) && s.rt.workClosed
    case ParseThrow(m) => IsParsing(s, m)
    case FinishParse => s.parseDone > 0
    case CloseDivide => true
    case CloseGate => true
    case StopWaiting => true
    case _ => false
  }

  /** Steps of the work pool and of what lies behind it. */
  ghost predicate WorkEnabled(s: State, e: Event) {
    match e
    case Work(x) => RT.Enabled(s.rt, x) && Internal(x) && Careful(s.rt, x)
    case ReturnCredit(w) => CanReturnCredit(s, w)
    case FinishOne(w) => CanFinishOne(s, w)
    case CheckPaused(w) => CanCheck(s, w)
    case _ => false
  }

  ghost predicate PoolEnabled(s: State, e: Event) {
    if AtWork(e) then WorkEnabled(s, e) else QueueEnabled(s, e)
  }

  ghost predicate Enabled(s: State, e: Event) {
    if AtReactor(e) then ReactorEnabled(s, e) else PoolEnabled(s, e)
  }

  predicate AtReactor(e: Event) {
    || e.Open? || e.Reactor? || e.TakeSlot? || e.AdmitFast? || e.AdmitDb? || e.Starve? || e.AddWaiting?
    || e.RefuseWaiting? || e.DispatchOk? || e.DispatchFull? || e.DispatchClosed? || e.GiveBack?
  }

  predicate AtWork(e: Event) {
    e.Work? || e.ReturnCredit? || e.FinishOne? || e.CheckPaused?
  }

  function ReactorEffect(s: State, e: Event): State
    requires ReactorEnabled(s, e)
  {
    match e
    case Open(c) => SetConn(s, c, NewConn(s.window))
    case Reactor(c, r) => SetConn(s, c, Do(s.conns[c], r))
    case TakeSlot(c, m) => DidTakeSlot(s, c, m)
    case AdmitFast(c) => SetConn(s, c, PastAdmission(s.conns[c]))
    case AdmitDb(c) => DidAdmitDb(s, c)
    case Starve(c) => SetConn(s, c, OutOfCredit(s.conns[c]))
    case AddWaiting(c) => DidAddWaiting(s, c)
    case RefuseWaiting(c) => DidRefuseWaiting(s, c)
    case DispatchOk(c) => DidDispatchOk(s, c)
    case DispatchFull(c) => DidDispatchFull(s, c)
    case DispatchClosed(c) => DidDispatchClosed(s, c)
    case GiveBack(c) => DidGiveBack(s, c)
  }

  function QueueEffect(s: State, e: Event): State
    requires QueueEnabled(s, e)
  {
    match e
    case DrainPop => DidDrainPop(s)
    case DrainAcquire => DidDrainAcquire(s)
    case DrainGateClosed => DidDrainGateClosed(s)
    case DrainPost => DidDrainPost(s)
    case DrainPostClosed => DidDrainPostClosed(s)
    case DrainSchedule => DidDrainSchedule(s)
    case DrainStop => s.(drain := DrainExited)
    case ParsePop => DidParsePop(s)
    case ParseOk(m) => DidParseOk(s, m)
    case ParseDropped(m) => ParsedTo(s, m, ParseFailed)
    case ParseThrow(m) => ParsedTo(s, m, ParseFailed)
    case FinishParse => DidFinishParse(s)
    case CountDivide => s.(divideTally := Counted(s.divideTally))
    case UncountDivide => s.(divideTally := Uncounted(s.divideTally))
    case CloseDivide => s.(divideClosed := true)
    case CloseGate => s.(gate := s.gate.(closed := true))
    case StopWaiting => s.(waitStopped := true)
  }

  function WorkEffect(s: State, e: Event): State
    requires WorkEnabled(s, e)
  {
    match e
    case Work(x) => s.(rt := RT.Step(s.rt, x))
    case ReturnCredit(w) => DidReturnCredit(s, w)
    case FinishOne(w) => DidFinishOne(s, w)
    case CheckPaused(w) => DidCheck(s, w)
  }

  function PoolEffect(s: State, e: Event): State
    requires !AtReactor(e) && PoolEnabled(s, e)
  {
    if AtWork(e) then WorkEffect(s, e) else QueueEffect(s, e)
  }

  function Step(s: State, e: Event): State
    requires Enabled(s, e)
  {
    if AtReactor(e) then ReactorEffect(s, e) else PoolEffect(s, e)
  }

  ghost predicate Possible(s: State, events: seq<Event>)
    decreases |events|
  {
    events == [] || (Enabled(s, events[0]) && Possible(Step(s, events[0]), events[1..]))
  }

  function Run(s: State, events: seq<Event>): State
    requires Possible(s, events)
    decreases |events|
  {
    if events == [] then s else Run(Step(s, events[0]), events[1..])
  }

  // ---------------------------------------------------------------- ledgers

  predicate HoldsSlot(m: Msg) {
    !m.stage.Returned?
  }

  predicate HoldsCredit(m: Msg) {
    m.db && (m.stage.Credited? || m.stage.DrainCredited? || m.stage.InDivide? || m.stage.Parsing?
             || m.stage.InWork? || m.stage.ParseFailed?)
  }

  /** The credits in use are the DB messages past admission and not settled, those whose parse failed included. */
  ghost predicate CreditInv(msgs: map<MsgId, Msg>, credit: set<MsgId>, gate: Gate) {
    && (forall m :: m in credit <==> m in msgs && HoldsCredit(msgs[m]))
    && (!gate.closed ==> gate.available + |credit| == gate.limit)
    && 0 <= gate.available
  }

  /** The window counter of a connection is the number of its messages that have not given their slot back. */
  ghost predicate SlotInv(conns: map<ConnId, Conn>, msgs: map<MsgId, Msg>) {
    && (forall c :: c in conns ==> SlotsOf(conns[c], c, msgs))
    && (forall m :: m in msgs ==> msgs[m].conn in conns)
  }

  ghost predicate SlotsOf(x: Conn, c: ConnId, msgs: map<MsgId, Msg>) {
    && (forall m :: m in x.slots <==> m in msgs && msgs[m].conn == c && HoldsSlot(msgs[m]))
    && x.flow.inFlight == |x.slots|
  }

  /** The reactor of a connection finds the message in its hands at the stage it should be at. */
  ghost predicate HandInv(conns: map<ConnId, Conn>, msgs: map<MsgId, Msg>) {
    forall c :: c in conns ==> AtInv(conns[c].at, c, msgs)
  }

  ghost predicate AtInv(at: At, c: ConnId, msgs: map<MsgId, Msg>) {
    match at
    case Hand(m, _) => m in msgs && msgs[m].conn == c && msgs[m].stage.InHand?
    case Admitted(m, _) => m in msgs && msgs[m].conn == c
                        && (if msgs[m].db then msgs[m].stage.Credited? else msgs[m].stage.InHand?)
    case Starved(m, _) => m in msgs && msgs[m].conn == c && msgs[m].stage.InHand? && msgs[m].db
    case Refused(m, _) => m in msgs && msgs[m].conn == c && msgs[m].stage.TurnedDown?
    case _ => true
  }

  predicate PastPosting(stage: Stage) {
    stage.InDivide? || stage.Parsing? || stage.InWork? || stage.Settled? || stage.ParseFailed? || stage.Returned?
  }

  /** Queues and drain thread find their messages at the stage they should be at. */
  ghost predicate QueueInv(s: State) {
    && s.waitHead <= |s.waiting| && s.divideHead <= |s.divide|
    && (forall t :: s.waitHead <= t < |s.waiting| ==>
          s.waiting[t] in s.msgs && s.msgs[s.waiting[t]].stage == Waiting(t) && s.msgs[s.waiting[t]].db)
    && (forall t :: s.divideHead <= t < |s.divide| ==>
          s.divide[t] in s.msgs && s.msgs[s.divide[t]].stage == InDivide(t))
    && (s.drain.DrainHas? ==> s.drain.m in s.msgs && s.msgs[s.drain.m].stage.Draining? && s.msgs[s.drain.m].db
                              && s.waitHead > 0 && s.waiting[s.waitHead - 1] == s.drain.m)
    && (s.drain.DrainMayPost? ==> s.drain.m in s.msgs && s.msgs[s.drain.m].stage.DrainCredited?)
    && (s.drain.DrainMustSchedule? ==> s.drain.m in s.msgs && PastPosting(s.msgs[s.drain.m].stage))
  }

  /** The runtime has exactly the messages that are in work. */
  ghost predicate WorkInv(msgs: map<MsgId, Msg>, place: map<MsgId, Place>, workers: map<Thread, Worker>) {
    && (forall m :: m in place ==> m in msgs && (msgs[m].stage.InWork? || msgs[m].stage.Settled?))
    && (forall m :: m in msgs && msgs[m].stage.InWork? ==> m in place)
    && (forall w :: w in workers && workers[w].GivingSlot? ==>
          workers[w].flow in msgs && msgs[workers[w].flow].stage.Settled?)
    && (forall w :: w in workers && workers[w].Checking? ==> workers[w].flow in msgs)
    && (forall m :: m in msgs && msgs[m].stage.Settled? ==> SettledBy(m, place, workers))
  }

  /** A worker has given back the credit of m and is about to give back its slot. */
  predicate SettledBy(m: MsgId, place: map<MsgId, Place>, workers: map<Thread, Worker>) {
    m in place && place[m].Executing? && place[m].worker in workers && workers[place[m].worker] == GivingSlot(m)
  }

  predicate WithDrain(d: Drain, m: MsgId) {
    (d.DrainHas? || d.DrainMayPost? || d.DrainMustSchedule?) && d.m == m
  }

  predicate WaitsForResume(msg: Msg, m: MsgId, drain: Drain) {
    msg.stage.Waiting? || WithDrain(drain, m)
  }

  /** The messages noted as parked at a connection are those in the waiting queue or with the drain thread. */
  ghost predicate ParkedInv(conns: map<ConnId, Conn>, msgs: map<MsgId, Msg>, drain: Drain) {
    forall c :: c in conns ==> ParkedOf(conns[c], c, msgs, drain)
  }

  ghost predicate ParkedOf(x: Conn, c: ConnId, msgs: map<MsgId, Msg>, drain: Drain) {
    forall m :: m in x.parked <==> m in msgs && msgs[m].conn == c && WaitsForResume(msgs[m], m, drain)
  }

  predicate NeedsResume(workers: map<Thread, Worker>, w: Thread) {
    w in workers && workers[w].Checking? && workers[w].needResume
  }

  /** The workers noted as needy at a connection are those told to resume it and about to check. */
  ghost predicate NeedyInv(conns: map<ConnId, Conn>, msgs: map<MsgId, Msg>, workers: map<Thread, Worker>) {
    forall c :: c in conns ==> NeedyOf(conns[c], c, msgs, workers)
  }

  ghost predicate NeedyOf(x: Conn, c: ConnId, msgs: map<MsgId, Msg>, workers: map<Thread, Worker>) {
    forall w :: w in x.needy <==>
      NeedsResume(workers, w) && workers[w].flow in msgs && msgs[workers[w].flow].conn == c
  }

  ghost predicate ControlInv(s: State) {
    && s.window >= 1
    && forall c :: c in s.conns ==> ConnInv(s.conns[c]) && s.conns[c].flow.window == s.window
  }

  /** The counter of the parse pool is exact, and what it ever accepted is queued, being parsed, or past that. */
  ghost predicate DivideInv(s: State) {
    && s.divideHead <= |s.divide|
    && Exact(s.divideTally, |s.divide| - s.divideHead, |s.parsing| + s.parseDone)
    && (forall m :: m in s.parsing <==> m in s.msgs && s.msgs[m].stage.Parsing?)
    && (forall t :: 0 <= t < |s.divide| ==> s.divide[t] in s.msgs && PastPosting(s.msgs[s.divide[t]].stage))
    && (forall m :: m in s.msgs && s.msgs[m].stage.InDivide? ==>
          s.divideHead <= s.msgs[m].stage.ticket < |s.divide| && s.divide[s.msgs[m].stage.ticket] == m)
  }

  ghost predicate StreamsInv(conns: map<ConnId, Conn>) {
    forall c :: c in conns ==> Lossless(conns[c])
  }

  ghost predicate Inv(s: State) {
    && CreditInv(s.msgs, s.credit, s.gate)
    && SlotInv(s.conns, s.msgs)
    && HandInv(s.conns, s.msgs)
    && QueueInv(s)
    && WorkInv(s.msgs, s.rt.place, s.rt.workers)
    && ParkedInv(s.conns, s.msgs, s.drain)
    && NeedyInv(s.conns, s.msgs, s.rt.workers)
    && ControlInv(s)
    && DivideInv(s)
    && StreamsInv(s.conns)
    && RT.Inv(s.rt)
  }
}
