/** Work pool, coroutine registry and DB pool as one step system, for any number of threads, flows and queries.
    A flow is one business coroutine: it runs in some worker, may suspend on a query, and comes back through the
    DB pool, a wake-up task and a resume task, any number of times.  Each locked region or queue operation of
    the source is one step; the scheduler picks steps freely. */
module CoroutineRuntime {
  import opened BlockingQueue
  import opened IdleCount

  type Flow = nat
  type Thread = nat
  type Guard = nat

  /** A queued work task: run (or resume) a flow, or the DB pool's `on_event(key)`. */
  datatype Task = RunFlow(flow: Flow) | WakeUp(key: Key)

  /** How far a worker has got with its task. */
  datatype Worker =
    | Idle
    | InFn(flow: Flow, guard: Guard)
    | Awaiting(flow: Flow, key: Key, guard: Guard, submitted: bool)  // in `await_suspend`, after the insert
    | Ending(flow: Flow)                                             // fn returned and the flow did not suspend
    | GivingSlot(flow: Flow)                                         // its DB credit is settled
    | Checking(flow: Flow, needResume: bool)                         // its window slot is given back
    | OnEvent(key: Key)
    | Handing(tasks: seq<Blocked<Flow>>)                             // on_event holds what it took
    | Done                                                           // before `finish_task`

  datatype DbWorker = DbIdle | Querying(key: Key) | Answered(key: Key) | DbDone

  // History: where the one continuation of a flow is, and how far the query of a key has got.

  /** Suspended: in the registry, or taken out of it by `settle_pending` and not handed on yet. */
  datatype Place =
    | Queued(ticket: nat) | Executing(worker: Thread) | Suspended(key: Key) | InHands(worker: Thread) | Dropped

  /** No job: the DB pool refused the query; no wake: the work pool refused the wake-up. */
  datatype Phase =
    | Inserting(worker: Thread) | DbQueued(ticket: nat) | AtDb(dbWorker: Thread)
    | WakeQueued(ticket: nat) | Waking(worker: Thread) | Over | NoJob | NoWake

  datatype KeyInfo = KeyInfo(flow: Flow, guard: Guard, phase: Phase)

  /** A queue is its log of pushes and the position of its head.  `guards[g]` is the worker that created suspend
      guard g; `finished` are the guards whose `finish()` has run; `settling` is what `take_all` gave to
      `settle_pending` and it has not handed on, in no particular order; `settled` is what it ever took. */
  datatype Runtime = Runtime(
    work: seq<Task>, workHead: nat, workClosed: bool, workTally: Tally, workers: map<Thread, Worker>,
    guards: seq<Thread>, finished: set<Guard>,
    registry: Registry<Flow>, keys: map<Key, KeyInfo>,
    db: seq<Key>, dbHead: nat, dbClosed: bool, dbTally: Tally, dbWorkers: map<Thread, DbWorker>,
    place: map<Flow, Place>, settling: Registry<Flow>, settled: set<Key>)

  /** Thread numbers below n, all idle. */
  function IdleWorkers(n: nat): (r: map<Thread, Worker>)
    ensures forall w: Thread :: w in r <==> w < n
    ensures forall w :: w in r ==> r[w].Idle?
  {
    if n == 0 then map[] else IdleWorkers(n - 1)[n - 1 := Idle]
  }

  function IdleDbWorkers(n: nat): (r: map<Thread, DbWorker>)
    ensures forall d: Thread :: d in r <==> d < n
    ensures forall d :: d in r ==> r[d].DbIdle?
  {
    if n == 0 then map[] else IdleDbWorkers(n - 1)[n - 1 := DbIdle]
  }

  function NewRuntime(workers: nat, dbWorkers: nat): Runtime {
    Runtime([], 0, false, NO_TASKS, IdleWorkers(workers), [], {}, map[], map[],
            [], 0, false, NO_TASKS, IdleDbWorkers(dbWorkers), map[], map[], {})
  }

  datatype Event =
    | CountWork
    | UncountWork
    | Submit(flow: Flow)
    | PopTask(w: Thread)
    | Suspend(w: Thread, key: Key)
    | SubmitQuery(w: Thread)
    | FnEnds(w: Thread)
    | FnSuspended(w: Thread)
    | SettleCredit(w: Thread)
    | GiveSlot(w: Thread, needResume: bool)
    | Check(w: Thread)
    | TakeBlocked(w: Thread)
    | PostResume(w: Thread)
    | EventEnds(w: Thread)
    | FinishTask(w: Thread)
    | CountDb
    | UncountDb
    | DbPop(d: Thread)
    | DbAnswer(d: Thread)
    | DbPost(d: Thread)
    | DbPostStopped(d: Thread)
    | DbFinish(d: Thread)
    | TakeAllBlocked
    | PostSettled(key: Key)
    | CloseWork
    | CloseDb

  predicate Busy(x: Worker) {
    x.InFn? || x.Awaiting? || x.Ending? || x.GivingSlot?
  }

  predicate OnCoroutine(x: Worker) {
    x.InFn? || x.Awaiting?
  }

  predicate Serving(x: DbWorker) {
    x.Querying? || x.Answered?
  }

  function Become(s: Runtime, w: Thread, x: Worker): Runtime {
    s.(workers := s.workers[w := x])
  }

  function AtPhase(s: Runtime, k: Key, p: Phase): Runtime
    requires k in s.keys
  {
    s.(keys := s.keys[k := s.keys[k].(phase := p)])
  }

  // ---------------------------------------------------------------- pushes

  /** Push a flow to the work queue, after counting it; a closed queue drops it. */
  function PushFlow(s: Runtime, m: Flow): Runtime
    requires s.workTally.adding > 0
  {
    if s.workClosed then s.(place := s.place[m := Dropped])
    else s.(work := s.work + [RunFlow(m)], place := s.place[m := Queued(|s.work|)], workTally := Pushed(s.workTally))
  }

  function PushWake(s: Runtime, k: Key): Runtime
    requires k in s.keys && s.workTally.adding > 0
  {
    if s.workClosed then AtPhase(s, k, NoWake)
    else AtPhase(s.(work := s.work + [WakeUp(k)], workTally := Pushed(s.workTally)), k, WakeQueued(|s.work|))
  }

  // ---------------------------------------------------------------- work workers

  predicate CanSubmit(s: Runtime, m: Flow) {
    m !in s.place && !s.workClosed && s.workTally.adding > 0
  }

  predicate CanPop(s: Runtime, w: Thread) {
    w in s.workers && s.workers[w].Idle? && s.workHead < |s.work|
    && (s.work[s.workHead].WakeUp? ==> s.work[s.workHead].key in s.keys)
  }

  function PoppedFlow(s: Runtime, w: Thread, m: Flow): Runtime {
    Become(s.(workHead := s.workHead + 1, guards := s.guards + [w], place := s.place[m := Executing(w)]),
           w, InFn(m, |s.guards|))
  }

  function PoppedWake(s: Runtime, w: Thread, k: Key): Runtime
    requires k in s.keys
  {
    AtPhase(Become(s.(workHead := s.workHead + 1), w, OnEvent(k)), k, Waking(w))
  }

  function Popped(s: Runtime, w: Thread): Runtime
    requires CanPop(s, w)
  {
    match s.work[s.workHead]
    case RunFlow(m) => PoppedFlow(s, w, m)
    case WakeUp(k) => PoppedWake(s, w, k)
  }

  /** Every query has a key of its own. */
  predicate CanSuspend(s: Runtime, w: Thread, k: Key) {
    w in s.workers && s.workers[w].InFn? && k !in s.keys
  }

  function DidSuspend(s: Runtime, w: Thread, k: Key): Runtime
    requires CanSuspend(s, w, k)
  {
    var x := s.workers[w];
    Become(s.(registry := Inserted(s.registry, Blocked(k, x.flow)),
              keys := s.keys[k := KeyInfo(x.flow, x.guard, Inserting(w))]),
           w, Awaiting(x.flow, k, x.guard, false))
  }

  predicate CanSubmitQuery(s: Runtime, w: Thread) {
    && w in s.workers && s.workers[w].Awaiting? && !s.workers[w].submitted && s.workers[w].key in s.keys
    && s.dbTally.adding > 0
  }

  function DidSubmitQuery(s: Runtime, w: Thread): Runtime
    requires CanSubmitQuery(s, w)
  {
    var x := s.workers[w];
    var r := Become(s, w, x.(submitted := true));
    if s.dbClosed then AtPhase(r, x.key, NoJob)
    else AtPhase(r.(db := s.db + [x.key], dbTally := Pushed(s.dbTally)), x.key, DbQueued(|s.db|))
  }

  // fn returns and `active->finish()` runs: either the flow is over, or it has suspended

  predicate CanEnd(s: Runtime, w: Thread) {
    w in s.workers && s.workers[w].InFn?
  }

  function Ended(s: Runtime, w: Thread): Runtime
    requires CanEnd(s, w)
  {
    Become(s.(finished := s.finished + {s.workers[w].guard}), w, Ending(s.workers[w].flow))
  }

  predicate CanLeave(s: Runtime, w: Thread) {
    w in s.workers && s.workers[w].Awaiting? && s.workers[w].submitted
  }

  /** The flow is where its continuation is; while it still executes here, that is now the registry's entry. */
  function PlaceLeft(place: map<Flow, Place>, m: Flow, w: Thread, k: Key): map<Flow, Place> {
    if m in place && place[m] == Executing(w) then place[m := Suspended(k)] else place
  }

  function LeftSuspended(s: Runtime, w: Thread): Runtime
    requires CanLeave(s, w)
  {
    var x := s.workers[w];
    Become(s.(finished := s.finished + {x.guard}, place := PlaceLeft(s.place, x.flow, w, x.key)), w, Done)
  }

  predicate CanSettleCredit(s: Runtime, w: Thread) {
    w in s.workers && s.workers[w].Ending?
  }

  function CreditSettled(s: Runtime, w: Thread): Runtime
    requires CanSettleCredit(s, w)
  {
    Become(s, w, GivingSlot(s.workers[w].flow))
  }

  predicate CanGiveSlot(s: Runtime, w: Thread) {
    w in s.workers && s.workers[w].GivingSlot?
  }

  function SlotGiven(s: Runtime, w: Thread, needResume: bool): Runtime
    requires CanGiveSlot(s, w)
  {
    Become(s.(place := s.place - {s.workers[w].flow}), w, Checking(s.workers[w].flow, needResume))
  }

  predicate CanTake(s: Runtime, w: Thread) {
    w in s.workers && s.workers[w].OnEvent? && s.workers[w].key in s.keys
  }

  function PlaceTaken(place: map<Flow, Place>, tasks: seq<Blocked<Flow>>, w: Thread): map<Flow, Place> {
    if tasks == [] then place else place[tasks[0].task := InHands(w)]
  }

  function TookBlocked(s: Runtime, w: Thread): Runtime
    requires CanTake(s, w)
  {
    var k := s.workers[w].key;
    var tasks := Filed(s.registry, k);
    s.(registry := Without(s.registry, k), keys := s.keys[k := s.keys[k].(phase := Over)],
       place := PlaceTaken(s.place, tasks, w), workers := s.workers[w := Handing(tasks)])
  }

  predicate CanPostResume(s: Runtime, w: Thread) {
    w in s.workers && s.workers[w].Handing? && s.workers[w].tasks != [] && s.workTally.adding > 0
  }

  function PostedResume(s: Runtime, w: Thread): Runtime
    requires CanPostResume(s, w)
  {
    PushFlow(Become(s, w, Handing(s.workers[w].tasks[1..])), s.workers[w].tasks[0].task)
  }

  predicate CanEndEvent(s: Runtime, w: Thread) {
    w in s.workers && s.workers[w].Handing? && s.workers[w].tasks == []
  }

  predicate CanFinishTask(s: Runtime, w: Thread) {
    w in s.workers && s.workers[w].Done?
  }

  function DidFinishTask(s: Runtime, w: Thread): Runtime {
    Become(s.(workTally := TaskFinished(s.workTally)), w, Idle)
  }

  // ---------------------------------------------------------------- DB workers

  predicate CanDbPop(s: Runtime, d: Thread) {
    d in s.dbWorkers && s.dbWorkers[d].DbIdle? && s.dbHead < |s.db| && s.db[s.dbHead] in s.keys
  }

  function DbPopped(s: Runtime, d: Thread): Runtime
    requires CanDbPop(s, d)
  {
    var k := s.db[s.dbHead];
    AtPhase(s.(dbHead := s.dbHead + 1, dbWorkers := s.dbWorkers[d := Querying(k)]), k, AtDb(d))
  }

  predicate CanDbAnswer(s: Runtime, d: Thread) {
    d in s.dbWorkers && s.dbWorkers[d].Querying?
  }

  function DbAnswered(s: Runtime, d: Thread): Runtime
    requires CanDbAnswer(s, d)
  {
    s.(dbWorkers := s.dbWorkers[d := Answered(s.dbWorkers[d].key)])
  }

  /** `wait_finished`: the guard of the suspending task has to be finished first. */
  predicate CanDbPost(s: Runtime, d: Thread) {
    && d in s.dbWorkers && s.dbWorkers[d].Answered? && s.dbWorkers[d].key in s.keys
    && s.keys[s.dbWorkers[d].key].guard in s.finished && s.workTally.adding > 0
  }

  /** Without a connection the worker posts the wake-up and does not look at the guard. */
  predicate CanDbPostStopped(s: Runtime, d: Thread) {
    && d in s.dbWorkers && s.dbWorkers[d].Querying? && s.dbWorkers[d].key in s.keys && s.workTally.adding > 0
  }

  function DbPosted(s: Runtime, d: Thread): Runtime
    requires d in s.dbWorkers && Serving(s.dbWorkers[d]) && s.dbWorkers[d].key in s.keys && s.workTally.adding > 0
  {
    PushWake(s.(dbWorkers := s.dbWorkers[d := DbDone]), s.dbWorkers[d].key)
  }

  predicate CanDbFinish(s: Runtime, d: Thread) {
    d in s.dbWorkers && s.dbWorkers[d].DbDone?
  }

  function DidDbFinish(s: Runtime, d: Thread): Runtime {
    s.(dbTally := TaskFinished(s.dbTally), dbWorkers := s.dbWorkers[d := DbIdle])
  }

  // ---------------------------------------------------------------- settle_pending

  function TookAll(s: Runtime): Runtime {
    s.(registry := map[], settling := s.settling + s.registry, settled := s.settled + s.registry.Keys)
  }

  predicate CanPostSettled(s: Runtime, k: Key) {
    k in s.settling && s.settling[k] != [] && s.workTally.adding > 0
  }

  function PostedSettled(s: Runtime, k: Key): Runtime
    requires CanPostSettled(s, k)
  {
    var tasks := s.settling[k];
    PushFlow(s.(settling := if |tasks| == 1 then Without(s.settling, k) else s.settling[k := tasks[1..]]),
             tasks[0].task)
  }

  // ---------------------------------------------------------------- the step system

  predicate Enabled(s: Runtime, e: Event) {
    match e
    case CountWork => true
    case UncountWork => s.workTally.adding > 0
    case Submit(m) => CanSubmit(s, m)
    case PopTask(w) => CanPop(s, w)
    case Suspend(w, k) => CanSuspend(s, w, k)
    case SubmitQuery(w) => CanSubmitQuery(s, w)
    case FnEnds(w) => CanEnd(s, w)
    case FnSuspended(w) => CanLeave(s, w)
    case SettleCredit(w) => CanSettleCredit(s, w)
    case GiveSlot(w, _) => CanGiveSlot(s, w)
    case Check(w) => w in s.workers && s.workers[w].Checking?
    case TakeBlocked(w) => CanTake(s, w)
    case PostResume(w) => CanPostResume(s, w)
    case EventEnds(w) => CanEndEvent(s, w)
    case FinishTask(w) => CanFinishTask(s, w)
    case CountDb => true
    case UncountDb => s.dbTally.adding > 0
    case DbPop(d) => CanDbPop(s, d)
    case DbAnswer(d) => CanDbAnswer(s, d)
    case DbPost(d) => CanDbPost(s, d)
    case DbPostStopped(d) => CanDbPostStopped(s, d)
    case DbFinish(d) => CanDbFinish(s, d)
    case TakeAllBlocked => true
    case PostSettled(k) => CanPostSettled(s, k)
    case CloseWork => true
    case CloseDb => true
  }

  function Step(s: Runtime, e: Event): Runtime
    requires Enabled(s, e)
  {
    match e
    case CountWork => s.(workTally := Counted(s.workTally))
    case UncountWork => s.(workTally := Uncounted(s.workTally))
    case Submit(m) => PushFlow(s, m)
    case PopTask(w) => Popped(s, w)
    case Suspend(w, k) => DidSuspend(s, w, k)
    case SubmitQuery(w) => DidSubmitQuery(s, w)
    case FnEnds(w) => Ended(s, w)
    case FnSuspended(w) => LeftSuspended(s, w)
    case SettleCredit(w) => CreditSettled(s, w)
    case GiveSlot(w, need) => SlotGiven(s, w, need)
    case Check(w) => Become(s, w, Done)
    case TakeBlocked(w) => TookBlocked(s, w)
    case PostResume(w) => PostedResume(s, w)
    case EventEnds(w) => Become(s, w, Done)
    case FinishTask(w) => DidFinishTask(s, w)
    case CountDb => s.(dbTally := Counted(s.dbTally))
    case UncountDb => s.(dbTally := Uncounted(s.dbTally))
    case DbPop(d) => DbPopped(s, d)
    case DbAnswer(d) => DbAnswered(s, d)
    case DbPost(d) => DbPosted(s, d)
    case DbPostStopped(d) => DbPosted(s, d)
    case DbFinish(d) => DidDbFinish(s, d)
    case TakeAllBlocked => TookAll(s)
    case PostSettled(k) => PostedSettled(s, k)
    case CloseWork => s.(workClosed := true)
    case CloseDb => s.(dbClosed := true)
  }

  ghost predicate Possible(s: Runtime, events: seq<Event>)
    decreases |events|
  {
    events == [] || (Enabled(s, events[0]) && Possible(Step(s, events[0]), events[1..]))
  }

  function Run(s: Runtime, events: seq<Event>): Runtime
    requires Possible(s, events)
    decreases |events|
  {
    if events == [] then s else Run(Step(s, events[0]), events[1..])
  }

  // ---------------------------------------------------------------- invariants of every run

  /** Every live trace of a key - queued job, DB worker, wake-up task, worker in on_event - is the only one. */
  ghost predicate TracesInv(s: Runtime) {
    && s.workHead <= |s.work| && s.dbHead <= |s.db|
    && (forall t :: s.workHead <= t < |s.work| && s.work[t].WakeUp? ==>
          s.work[t].key in s.keys && s.keys[s.work[t].key].phase == WakeQueued(t))
    && (forall w :: w in s.workers && s.workers[w].OnEvent? ==>
          s.workers[w].key in s.keys && s.keys[s.workers[w].key].phase == Waking(w))
    && (forall t :: s.dbHead <= t < |s.db| ==> s.db[t] in s.keys && s.keys[s.db[t]].phase == DbQueued(t))
    && (forall d :: d in s.dbWorkers && Serving(s.dbWorkers[d]) ==>
          s.dbWorkers[d].key in s.keys && s.keys[s.dbWorkers[d].key].phase == AtDb(d))
    && (forall w :: w in s.workers && s.workers[w].Awaiting? ==>
          && s.workers[w].key in s.keys
          && s.keys[s.workers[w].key].flow == s.workers[w].flow
          && s.keys[s.workers[w].key].guard == s.workers[w].guard
          && (!s.workers[w].submitted ==> s.keys[s.workers[w].key].phase == Inserting(w)))
  }

  /** And the phase of a key is where its trace really is. */
  ghost predicate PhasesInv(s: Runtime) {
    && (forall k :: k in s.keys ==>
          match s.keys[k].phase
          case DbQueued(t) => s.dbHead <= t < |s.db| && s.db[t] == k
          case AtDb(d) => d in s.dbWorkers && Serving(s.dbWorkers[d]) && s.dbWorkers[d].key == k
          case _ => true)
    && (forall t :: 0 <= t < s.dbHead && t < |s.db| ==> s.db[t] in s.keys && PastDbQueue(s.keys[s.db[t]].phase))
  }

  /** A DB worker has taken the job up; once it is done with it, the wake-up was posted or refused. */
  predicate PastDbQueue(p: Phase) {
    p.AtDb? || PastDb(p)
  }

  predicate PastDb(p: Phase) {
    p.WakeQueued? || p.Waking? || p.Over? || p.NoWake?
  }

  ghost predicate OneTaskEach(m: Registry<Flow>, keys: map<Key, KeyInfo>) {
    forall k :: k in m ==> k in keys && m[k] == [Blocked(k, keys[k].flow)]
  }

  /** The registry holds one task for each key that still waits, and a key leaves it once: to the wake-up that
      belongs to it, or to `take_all`. */
  ghost predicate RegistryInv(s: Runtime) {
    && OneTaskEach(s.registry, s.keys) && OneTaskEach(s.settling, s.keys)
    && (forall k :: k in s.keys && s.keys[k].phase.Over? ==> k !in s.registry)
    && (forall k :: k in s.keys && !s.keys[k].phase.Over? ==> k in s.registry || k in s.settled)
    && s.settled <= s.keys.Keys && s.settling.Keys <= s.settled && s.settled !! s.registry.Keys
  }

  /** A worker on a coroutine holds an unfinished guard of its own; the worker of an unfinished guard under which a
      key was filed is still in `await_suspend` of that key. */
  ghost predicate OwnersInv(s: Runtime) {
    && (forall g :: g in s.finished ==> g < |s.guards|)
    && (forall w :: w in s.workers && OnCoroutine(s.workers[w]) ==>
          s.workers[w].guard < |s.guards| && s.guards[s.workers[w].guard] == w && s.workers[w].guard !in s.finished)
    && (forall k :: k in s.keys && s.keys[k].guard !in s.finished ==> OwnerAwaits(s, k))
  }

  predicate OwnerAwaits(s: Runtime, k: Key)
    requires k in s.keys
  {
    && s.keys[k].guard < |s.guards|
    && var w := s.guards[s.keys[k].guard]; w in s.workers && s.workers[w].Awaiting? && s.workers[w].key == k
  }

  function AtWork(workers: map<Thread, Worker>): set<Thread> {
    set w | w in workers && !workers[w].Idle?
  }

  function AtQueries(dbWorkers: map<Thread, DbWorker>): set<Thread> {
    set d | d in dbWorkers && !dbWorkers[d].DbIdle?
  }

  /** Both counters are exact. */
  ghost predicate TalliesInv(s: Runtime) {
    && Exact(s.workTally, |s.work| - s.workHead, |AtWork(s.workers)|)
    && Exact(s.dbTally, |s.db| - s.dbHead, |AtQueries(s.dbWorkers)|)
  }

  ghost predicate KeysInv(s: Runtime) {
    TracesInv(s) && PhasesInv(s) && RegistryInv(s) && OwnersInv(s) && TalliesInv(s)
  }

  // ---------------------------------------------------------------- invariants while suspend guards are respected

  /** Where the state says a flow is, there it is. */
  ghost predicate PlacesInv(s: Runtime) {
    && (forall t :: s.workHead <= t < |s.work| && s.work[t].RunFlow? ==>
          s.work[t].flow in s.place && s.place[s.work[t].flow] == Queued(t))
    && (forall w :: w in s.workers && Busy(s.workers[w]) ==>
          s.workers[w].flow in s.place && s.place[s.workers[w].flow] == Executing(w))
    && (forall w :: w in s.workers && s.workers[w].Handing? ==> HandingInv(s, w))
  }

  /** A filed flow waits where its key says. */
  ghost predicate WaitingInv(s: Runtime) {
    && (forall k :: k in s.registry && k in s.keys ==> BlockedFlowInv(s, k))
    && (forall k :: k in s.settling && k in s.keys ==>
          s.keys[k].flow in s.place && s.place[s.keys[k].flow] == Suspended(k))
    && (forall w :: w in s.workers && s.workers[w].Awaiting? ==> s.workers[w].key in s.registry)
  }

  ghost predicate HandingInv(s: Runtime, w: Thread)
    requires w in s.workers && s.workers[w].Handing?
  {
    var tasks := s.workers[w].tasks;
    |tasks| <= 1 && (|tasks| == 1 ==> tasks[0].task in s.place && s.place[tasks[0].task] == InHands(w))
  }

  /** A registered flow is suspended, or its worker has not come back from `await_suspend` yet. */
  ghost predicate BlockedFlowInv(s: Runtime, k: Key)
    requires k in s.keys
  {
    var m := s.keys[k].flow;
    && m in s.place
    && (s.place[m] == Suspended(k)
        || (s.place[m].Executing? && var w := s.place[m].worker;
            w in s.workers && s.workers[w].Awaiting? && s.workers[w].flow == m && s.workers[w].key == k))
  }

  /** And nowhere else: each place a flow can be at is really taken by it. */
  ghost predicate OccupiedInv(s: Runtime) {
    forall m :: m in s.place ==>
      match s.place[m]
      case Queued(t) => s.workHead <= t < |s.work| && s.work[t] == RunFlow(m)
      case Executing(w) => w in s.workers && Busy(s.workers[w]) && s.workers[w].flow == m
      case Suspended(k) => (k in s.registry || k in s.settling) && k in s.keys && s.keys[k].flow == m
      case InHands(w) => w in s.workers && s.workers[w].Handing? && |s.workers[w].tasks| == 1
                         && s.workers[w].tasks[0].task == m
      case Dropped => s.workClosed
  }

  /** A wake-up exists only behind a finished guard. */
  ghost predicate WakesInv(s: Runtime) {
    forall k :: k in s.keys && (s.keys[k].phase.WakeQueued? || s.keys[k].phase.Waking?) ==>
      s.keys[k].guard in s.finished
  }

  ghost predicate FlowsInv(s: Runtime) {
    PlacesInv(s) && WaitingInv(s) && OccupiedInv(s) && WakesInv(s)
  }

  ghost predicate Inv(s: Runtime) {
    KeysInv(s) && FlowsInv(s)
  }

  /** The two steps of a shutdown that hand a flow on without waiting for its suspend guard do no harm when there is
      nothing to wait for: no worker is in `await_suspend`, or the guard is finished (or its wake-up is refused). */
  ghost predicate Careful(s: Runtime, e: Event) {
    match e
    case TakeAllBlocked => forall w :: w in s.workers ==> !s.workers[w].Awaiting?
    case DbPostStopped(d) => CanDbPostStopped(s, d) && (s.workClosed || s.keys[s.dbWorkers[d].key].guard in s.finished)
    case _ => true
  }

  ghost predicate CarefulRun(s: Runtime, events: seq<Event>)
    requires Possible(s, events)
    decreases |events|
  {
    events == [] || (Careful(s, events[0]) && CarefulRun(Step(s, events[0]), events[1..]))
  }
}
