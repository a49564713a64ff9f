/** How a message is admitted: the handler's decision on a reactor thread, the DB waiting queue, and the drain
    thread that takes messages out of it.  Each method is one undisturbed turn, up to its end or to the point where
    the thread has to wait. */
module Admission {
  import opened BoundedQueue
  import opened CreditGate
  import opened RouteClassifier
  import opened Wrappers

  type ConnId = nat

  datatype WaitingTask = WaitingTask(conn: ConnId, msg: string)

  /** `token` is null for a message that needs no DB credit. */
  datatype DivideTask = DivideTask(conn: ConnId, msg: string, token: DBCreditToken?)

  class DBWaitingQueue {
    var waitingTasks: seq<WaitingTask>
    var stopped: bool

    constructor ()
      ensures waitingTasks == [] && !stopped
    {
      waitingTasks, stopped := [], false;
    }

    method AddWaitingTask(conn: ConnId, msg: string) returns (ok: bool)
      modifies this
      ensures ok == !old(stopped) && stopped == old(stopped)
      ensures waitingTasks == old(waitingTasks) + if ok then [WaitingTask(conn, msg)] else []
    {
      if stopped {
        return false;
      }
      waitingTasks := waitingTasks + [WaitingTask(conn, msg)];
      ok := true;
    }
  }

  /** What the reactor does on request: connections it has paused, and those whose resume was scheduled. */
  class ReactorControl {
    var paused: set<ConnId>
    var resumes: seq<ConnId>

    method PauseReading(conn: ConnId)
      modifies this`paused
      ensures paused == old(paused) + {conn}
    {
      if conn in paused {
        return;
      }
      paused := paused + {conn};
    }

    method ScheduleResume(conn: ConnId)
      modifies this`resumes
      ensures resumes == old(resumes) + [conn]
    {
      resumes := resumes + [conn];
    }
  }

  class DividePool {
    const tasks: BoundedTaskQueue<DivideTask>
    var unfinished: int

    constructor (capacity: nat)
      ensures fresh(tasks) && tasks.View() == NewQueue(capacity) && unfinished == 0
    {
      tasks := new BoundedTaskQueue(capacity);
      unfinished := 0;
    }

    /** The answer to a task that will not wait. */
    function Offer(): PushResult
      reads tasks
    {
      if tasks.closed then Closed else if |tasks.queue| >= tasks.high then Full else Ok
    }

    method TryAddTask(task: DivideTask, consumer: Thread, producer: Thread) returns (r: PushResult)
      modifies this, tasks
      ensures r == old(Offer()) && tasks.closed == old(tasks.closed)
      ensures tasks.queue == old(tasks.queue) + if r == Ok then [task] else []
      ensures unfinished == old(unfinished) + if r == Ok then 1 else 0
    {
      unfinished := unfinished + 1;
      r := tasks.TryPush(task, consumer, producer);
      if r == Ok {
        return;
      }
      unfinished := unfinished - 1;
    }

    /** The blocking `add_task` of thread t, up to its answer or to its going to sleep (`None`) with the task counted;
        `entering` tells a first attempt from the one after a wake-up. */
    method AddTask(t: Thread, entering: bool, task: DivideTask, consumer: Thread) returns (r: Option<PushResult>)
      modifies this, tasks
      ensures r == match old(Offer())
                   case Ok => Some(Ok)
                   case Closed => Some(Closed)
                   case Full => None
      ensures tasks.closed == old(tasks.closed)
      ensures tasks.queue == old(tasks.queue) + if r == Some(Ok) then [task] else []
      ensures unfinished == old(unfinished) + (if entering then 1 else 0) - if r == Some(Closed) then 1 else 0
      ensures r == None ==> t in tasks.notFull.asleep
    {
      if entering {
        unfinished := unfinished + 1;
      }
      r := tasks.Push(t, entering, task, consumer);
      if r == Some(Closed) {
        unfinished := unfinished - 1;
      }
    }
  }

  /** The collaborators of a handler; the optional ones may be missing. */
  class Handler {
    const route: Classifier?
    const gate: DBCreditGate?
    const waiting: DBWaitingQueue?
    const control: ReactorControl?
    const divide: DividePool

    constructor (route: Classifier?, gate: DBCreditGate?, waiting: DBWaitingQueue?, control: ReactorControl?,
                 divide: DividePool)
      ensures this.route == route && this.gate == gate && this.waiting == waiting && this.control == control
      ensures this.divide == divide
    {
      this.route, this.gate, this.waiting, this.control, this.divide := route, gate, waiting, control, divide;
    }

    ghost function Footprint(): set<object> {
      (if gate == null then {} else {gate}) + (if waiting == null then {} else {waiting})
      + (if control == null then {} else {control}) + {divide, divide.tasks}
    }

    /** The gate never has more than its limit. */
    ghost predicate Valid()
      reads Footprint()
    {
      gate != null ==> gate.available <= gate.limit
    }

    predicate NeedsCredit(msg: string)
      reads route
    {
      gate != null && route != null && IsDb(route.db, msg)
    }

    predicate Starves(msg: string)
      reads route, gate
    {
      NeedsCredit(msg) && !CanAcquire(gate.View())
    }

    /** - A DB message without a credit goes to the end of the waiting queue, pauses its connection and takes
          nothing else; when it cannot wait, the answer is Full and nothing at all has changed.
        - Any other message is offered to the parse pool.  Full or Closed leave the gate, the waiting queue and
          the pool as they were: a credit that was taken has been given back.  Ok appends exactly this message,
          with a token that has not been released if and only if it is a DB message, which costs one credit. */
    method OnMessage(conn: ConnId, msg: string, consumer: Thread, producer: Thread) returns (r: PushResult)
      requires Valid()
      modifies Footprint()
      ensures Valid()
      ensures var db := gate != null && route != null && exists i :: 0 <= i < |route.db| && route.db[i] <= msg;
        if db && (old(gate.closed) || old(gate.available) == 0) then
          && r == (if waiting == null || old(waiting.stopped) then Full else Ok)
          && gate.available == old(gate.available)
        else
          && r == (if old(divide.tasks.closed) then Closed
                   else if |old(divide.tasks.queue)| >= divide.tasks.high then Full else Ok)
          && (gate != null ==> gate.available == old(gate.available) - if db && r == Ok then 1 else 0)
      ensures gate != null ==> gate.closed == old(gate.closed)
      ensures old(Starves(msg)) ==> divide.tasks.queue == old(divide.tasks.queue)
      ensures !old(Starves(msg)) && r == Ok ==>
        && |divide.tasks.queue| == |old(divide.tasks.queue)| + 1
        && var task := divide.tasks.queue[|old(divide.tasks.queue)|];
           && divide.tasks.queue == old(divide.tasks.queue) + [task]
           && task.conn == conn && task.msg == msg
           && (task.token != null <==> old(NeedsCredit(msg)))
           && (task.token != null ==> fresh(task.token) && task.token.gate == gate && !task.token.released)
      ensures !old(Starves(msg)) && r != Ok ==> divide.tasks.queue == old(divide.tasks.queue)
      ensures divide.unfinished == old(divide.unfinished) + |divide.tasks.queue| - |old(divide.tasks.queue)|
      ensures waiting != null ==>
        && waiting.stopped == old(waiting.stopped)
        && waiting.waitingTasks == old(waiting.waitingTasks)
             + if old(Starves(msg)) && r == Ok then [WaitingTask(conn, msg)] else []
      ensures control != null ==>
        && control.paused == old(control.paused) + (if old(Starves(msg)) && r == Ok then {conn} else {})
        && control.resumes == old(control.resumes)
    {
      var messageType := Fast;
      if route != null {
        messageType := route.Classify(msg);
      }
      var credit: DBCreditToken? := null;
      if messageType == DB && gate != null {
        var acquired := gate.TryAcquire();
        if !acquired {
          if waiting == null {
            return Full;
          }
          var added := waiting.AddWaitingTask(conn, msg);
          if !added {
            return Full;
          }
          if control != null {
            control.PauseReading(conn);
          }
          return Ok;
        }
        credit := new DBCreditToken(gate);
      }
      r := divide.TryAddTask(DivideTask(conn, msg, credit), consumer, producer);
      if r == Full {
        if credit != null {
          credit.Release();
        }
        return;
      }
      if r == Closed && credit != null {
        credit.Release();
      }
    }
  }

  // ---------------------------------------------------------------- the drain thread

  datatype Turn = Exits | Dispatched | Dropped | AwaitsMessage | AwaitsCredit | AwaitsRoom

  /** The message has left the waiting queue. */
  predicate TookOne(turn: Turn) {
    turn.Dispatched? || turn.Dropped? || turn.AwaitsCredit? || turn.AwaitsRoom?
  }

  /** One round of the drain thread t, up to its end or to the first point where it has to wait.
      - A stopped queue ends the thread, whatever is queued.
      - A closed gate: the message stays at the head and the thread ends.
      - Without a credit, or without room in the parse pool, the thread sleeps with the message, and for room with the
        credit too.
      - A closed pool: the message is gone, the credit is back.
      - Otherwise the oldest message moves to the end of the parse queue with an unreleased token that cost one
        credit, and its connection's resume is scheduled. */
  method DispatchWaitingTask(queue: DBWaitingQueue, gate: DBCreditGate, divide: DividePool, control: ReactorControl?,
                             t: Thread, consumer: Thread) returns (turn: Turn)
    requires gate.available <= gate.limit
    modifies queue, gate, divide, divide.tasks, control
    ensures turn == if old(queue.stopped) then Exits
                    else if old(queue.waitingTasks) == [] then AwaitsMessage
                    else if old(gate.closed) then Exits
                    else if old(gate.available) == 0 then AwaitsCredit
                    else match old(divide.Offer())
                         case Closed => Dropped
                         case Full => AwaitsRoom
                         case Ok => Dispatched
    ensures queue.waitingTasks == if TookOne(turn) then old(queue.waitingTasks)[1..] else old(queue.waitingTasks)
    ensures gate.View() == if turn.Dispatched? || turn.AwaitsRoom? then Acquired(old(gate.View())) else old(gate.View())
    ensures divide.unfinished == old(divide.unfinished) + if turn.Dispatched? || turn.AwaitsRoom? then 1 else 0
    ensures turn.AwaitsRoom? ==> t in divide.tasks.notFull.asleep
    ensures turn != Dispatched ==> divide.tasks.queue == old(divide.tasks.queue)
    ensures turn == Dispatched ==>
      && |divide.tasks.queue| == |old(divide.tasks.queue)| + 1
      && var task := divide.tasks.queue[|old(divide.tasks.queue)|];
         && divide.tasks.queue == old(divide.tasks.queue) + [task]
         && task.conn == old(queue.waitingTasks)[0].conn && task.msg == old(queue.waitingTasks)[0].msg
         && task.token != null && fresh(task.token) && task.token.gate == gate && !task.token.released
    ensures control != null ==>
      && control.paused == old(control.paused)
      && control.resumes == old(control.resumes)
           + if turn == Dispatched then [old(queue.waitingTasks)[0].conn] else []
  {
    if queue.stopped {
      return Exits;
    }
    if queue.waitingTasks == [] {
      return AwaitsMessage;
    }
    var p := queue.waitingTasks[0];
    queue.waitingTasks := queue.waitingTasks[1..];
    if !gate.closed && gate.available == 0 {
      return AwaitsCredit;
    }
    var acquired := gate.TryAcquire();
    if !acquired {
      queue.waitingTasks := [p] + queue.waitingTasks;
      return Exits;
    }
    var token := new DBCreditToken(gate);
    var r := divide.AddTask(t, true, DivideTask(p.conn, p.msg, token), consumer);
    if r == None {
      return AwaitsRoom;
    }
    if r.value != Ok {
      token.Release();
      return Dropped;
    }
    if control != null {
      control.ScheduleResume(p.conn);
    }
    turn := Dispatched;
  }
}
