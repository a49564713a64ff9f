# A verified model of the message pipeline

The server reads length-prefixed messages from many connections, admits them through a per-connection window and a
global number of DB credits, parses them in one pool, runs them as coroutines in a second and lets them wait for
queries in a third, and sends answers back in batches. This project models that machinery in Dafny and proves what it
promises: for any number of connections, messages and threads, for every interleaving of its locked regions, for any
chunking of the input and any answer of the kernel.

How the parts fit together:

| module | what it models |
|---|---|
| `Decimal`, `Sequences`, `Wrappers` | decimal text; facts about concatenation; a value that may be missing |
| `Framing` | the four-digit length header: `send_preview`, `take_one_message`, `spilit_message` |
| `ReadPath` | `handle_read` with its push-backs, pauses and chunked reads |
| `SendPath` | `enqueue_send`, the batching `try_send`, and the one-frame-at-a-time sender it refines |
| `EndToEnd` | sender, byte stream and reader composed |
| `FlowWindow`, `CreditGate`, `RouteClassifier` | the window, the DB credits and their tokens, DB or fast |
| `Admission` | `on_message`, the DB waiting queue, the drain thread's round |
| `BoundedQueue` | the blocking task queue with its two condition variables, waiter by waiter |
| `BlockingQueue` | the registry of suspended coroutines |
| `IdleCount` | the `unfinished_task_count_` that `wait_idle` looks at, the same in all three pools |
| `CoroutineRuntime`, `CoroutineProofs`, `CoroutineSteps`, `CoroutineTheorems`, `TwoOnOne` | work pool, registry and DB pool as one step system - run, suspend, query, wake up, resume, shut down - its invariants, who can go on and what each step does, what follows in every run, and how two workers can meet on one coroutine |
| `ReaderControl` | one connection's window, pause flag and pending buckets, and what every thread does to them |
| `Deafness` | exactly which connections nobody will ever serve again, wherever their reactor stands, and from which causes |
| `Pipeline`, `PipelineProofs`, `MessageSteps`, `PipelineSteps`, `PipelineChoices`, `PipelineTheorems` | all of it as one step system, its invariant, which steps move which messages, what each step does, who can go on, and what follows in every run |
| `Forfeits`, `StuckConnections` | credits that never come back, DB messages that will never be posted, and the connections that are left behind with them or otherwise |
| `AdmissionTurn` | `on_message` as one call and as steps of `Pipeline`: the same effect |
| `Scenario`, `BusyServer` | building blocks for concrete runs of `Pipeline`, for servers of any size |
| `RaceRun`, `DropRun`, `FailureRuns` | runs that strand a connection in each of the ways there are, and runs that fill a window and drain the gate with failed parses |
| `ConnectBook`, `FrameworkCall` | the roster of connections and groups, and the text commands that change it |

Objects that the source updates under a lock are classes here, and each method is proved against a function of the old
state; threads that meet in those objects are a step system over the same functions, with one step for each locked
region or atomic access and a scheduler that picks freely.

## Three results about the code as it is

- **Three things leave a connection behind whose window is not used up, and nothing else does.**
  `process_pending_resume` first consumes the resume and then clears `reading_paused` (aggregation/Reactor.cpp:217-218), and `process_divide_retry` likewise. If a worker
  gives back the last slot of a full window and looks at the flag between the two (aggregation/thread_pool.cpp:60-61),
  its resume is lost. When the parse pool is closed, the drain thread drops a message without scheduling the resume that
  its connection waits for (aggregation/backpressure.h:215-216 with aggregation/Server.cpp:113-114). And a message that
  is parked for a DB credit is never posted once no credit can come - as many failed parses as credits are enough
  (aggregation/backpressure.h:202) - or the gate, the waiting queue or the parse pool is closed. `NeverStranded` covers
  every reachable state: if nobody will look at a connection with a complete frame, it is blocked exactly if it lost a
  resume in the race, or was paused for a message that was dropped or will never be posted; otherwise its window is full,
  and the next message of it to end is told to resume it. `DeadForGood` shows that a blocked one never takes another
  message, in any continuation. `DeafExactly` says the same of one connection wherever its reactor stands, in both
  directions, and `DropSilencesExactly` and `RaceSilencesExactly` which drops and which checks are the end of it.
  `NeverStrandedUndisturbed` says that nobody is stranded in a run without race and drop while DB admission works;
  `RaceStrands`, `DropStrands`, `ClosedGateStrands` and `FailuresStrand` play the causes out, for every window, number of
  credits and parse-queue capacity - the first and the last in a server where nothing has been closed.
- **A failed parse is paid for forever.** A parse that throws drops its message with the window slot and the DB credit
  (aggregation/divide_pool.cpp:34-48; a token has no releasing destructor). With the gate open and no DB message in
  progress, one more is admitted if and only if fewer parses have failed than there are credits (`GateAtRest`); with
  none of its messages in progress, a connection's window is full if and only if as many were dropped as it has slots
  (`WindowAtRest`). `FailedParsesDrainTheGate` and `LostMessagesFillTheWindow` say that this is for good, and
  `FailuresDrainTheGate` and `FailuresFillTheWindow` reach it, in a server that is not shutting down.
- **A shutdown can end coroutine exclusivity, and exactly when is known.** `settle_pending` hands out suspended tasks
  without looking at their suspend guards (aggregation/Server.cpp:222-230), and so does a DB worker without a connection
  (aggregation/DB_pool.cpp:134-148). Such a step is harmless if no suspension is in progress - no worker in
  `await_suspend`, or the guard already finished. Exclusivity holds over every run, shutdown included, whose steps meet
  this; and `CarefulExactly` says that the first step that does not lets a suspension be overtaken at once.
  `SettlingBreaksExclusivity` and `StoppedPoolBreaksExclusivity` put two workers on one coroutine, and while the work
  pool is open `SettlingPutsTwoOnOne` and `StoppedPoolPutsTwoOnOne` do so from every state with a suspension in
  progress and another worker free.

Where the code and its README disagree, the model follows the code: after `close`, `pop` goes on handing out what is
queued (aggregation/bounded_task_queue.h:65-71), although README.md:463 says that it is no longer executed.

## Model

| member | source | states |
|---|---|---|
| Framing.EncodeFrame | aggregation/Reactor.cpp:33-37 | the padding loop yields the frame that the decoder's laws are about |
| Framing.WireFormat | aggregation/Reactor.cpp:33-37 | on the wire stand four ASCII digits that spell the length and then the message, or more digits for a message too long for four |
| Framing.IsHeaderAt | aggregation/Reactor.cpp:61-68 | true exactly when four decimal digits stand at that position |
| Framing.TakeOneMessage | aggregation/Reactor.cpp:58-95 | in one pass over positions it finds what dropping bytes one at a time finds; the branch for a length above the limit is dead |
| Framing.TakesFirstFrame | aggregation/Reactor.cpp:58-95 | by positions: the first four digits in a row announce a length, and that many bytes behind them are taken or waited for; without any the last three bytes stay |
| Framing.SplitMessages | aggregation/Reactor.cpp:39-56 | one pass over the buffer cuts out the same messages, and leaves the same rest, as repeated `take_one_message` |
| Framing.HeaderReprints | aggregation/Reactor.cpp:33-36 | four digits read as a number and printed with padding are the same four digits |
| Framing.RoundTrip | aggregation/Reactor.cpp:33-95 | a frame is read back, whatever follows it, if and only if the message has at most 9999 bytes |
| Framing.PushBack | aggregation/Reactor.cpp:318-328 | putting `send_preview(out)` back in front restores the buffer byte for byte from the frame header on, and the next read finds the same message |
| Framing.LeftoverIsShort | aggregation/Reactor.cpp:58-95 | without a complete frame at most 10002 bytes stay, and looking again changes nothing |
| Framing.DecodeAppend | aggregation/Reactor.cpp:58-95 | decoding a stream is decoding its first part, then what that left over followed by the rest |
| Framing.ChunkingIsInvisible | aggregation/Reactor.cpp:296-316 | any chunking of the input gives the messages and the leftover of the whole |
| Framing.DecodeFrames | aggregation/Reactor.cpp:33-95 | the frames of any messages that fit decode to these messages, then to what the tail decodes to |
| Framing.StreamRoundTrip | aggregation/Reactor.cpp:33-95 | a whole stream is read back exactly if and only if every message fits a four-digit header |
| Framing.GarbageIsSkipped | aggregation/Reactor.cpp:70-73 | a prefix in which no four-byte window is all digits is skipped, and nothing behind it |
| ReadPath.Connection.OneTurn | aggregation/Reactor.cpp:298-335 | one turn of the loop: what happens to buffer, pause, connection and delivered messages, and whether it goes on, for a frame that is delivered, parked, put back or refused and for each answer of the socket |
| ReadPath.Connection.HandleRead | aggregation/Reactor.cpp:296-337 | the whole loop, for any recorded answers of socket, window and handler: each turn but the last went on, and the last one used did not, or was the last recorded, or left the connection paused |
| ReadPath.WhyReadingStops | aggregation/Reactor.cpp:296-337 | a call that stops with turns left over and leaves the connection open and unpaused was refused a slot for a complete frame, or found the socket empty and no complete frame left; it pauses exactly for a parked or Full message and closes exactly for the end of the stream, an overlong buffer or Closed |
| ReadPath.EveryFrameIsDelivered | aggregation/Reactor.cpp:296-337 | with a slot for each message and every answer Ok, as many turns as the buffer holds complete frames deliver all of them in order, and read nothing |
| ReadPath.BackpressureLosesNothing | aggregation/Reactor.cpp:296-337 | for any reads and any window-full, Ok, parked and Full outcomes, delivered messages followed by the decoding of buffer and unread bytes are the decoding of the whole input; a closed connection delivered a prefix |
| ReadPath.BufferLimitIsNeverReached | aggregation/Reactor.cpp:309-313 | the buffer never exceeds 11026 bytes, so the 1 MiB branch never closes a connection |
| SendPath.Connection.EnqueueSend | aggregation/Reactor.cpp:114-123 | accepted exactly if connected and within 4 MiB; the frame and its bytes are added, otherwise nothing changes |
| SendPath.Connection.GatherBatch | aggregation/Reactor.cpp:349-359 | the gathering loop takes the batch that the specification takes, and its bytes leave the count |
| SendPath.BatchIsMaximal | aggregation/Reactor.cpp:351-359 | a batch stops only where the next frame would exceed 64 KiB, and only a single frame may be longer |
| SendPath.BatchIsWholeFrames | aggregation/Reactor.cpp:351-359 | a batch is a run of whole frames from the front of the queue |
| SendPath.Connection.TrySend | aggregation/Reactor.cpp:339-392 | under any partial writes, blocking and errors it hands one maximal batch after the other to `write`, goes on as long as a batch is taken whole, and writes, keeps and counts just what the last answer leaves; and it terminates |
| SendPath.SendsAllItCan | aggregation/Reactor.cpp:345-383 | the queue is cut into maximal batches of whole frames from the front, every write but the last took its batch whole, and bytes written, bytes left and failure are what the last answer says |
| SendPath.AllOfItGoesOut | aggregation/Reactor.cpp:345-383 | if every write takes its whole batch the queue ends empty and all of it is on the wire; and if a queue is left without an error, the answers ran out or the last write was blocked or short |
| SendPath.FlushConserves | aggregation/Reactor.cpp:345-383 | without an error written bytes followed by queued bytes are the old queue; with one, the written bytes are a prefix of it |
| SendPath.WireIsPrefixOfAccepted | aggregation/Reactor.cpp:114-123 | over every run the wire holds a prefix of the accepted frames and the queue exactly the rest; the byte count is exact and at most 4 MiB |
| SendPath.PeerDecodesAcceptedPrefix | aggregation/Reactor.cpp:339-392 | a peer that decodes the wire sees a prefix of the accepted messages, and all of them once the queue is empty |
| SendPath.BatchingRefinesOneByOne | aggregation/epoll.cpp:85-108 | whatever the batching sender does, the one-frame sender can do: same bytes on the wire, same failure, same bytes left |
| EndToEnd.DeliveredIsPrefixOfAccepted | aggregation/Reactor.cpp:296-392 | from `enqueue_send` here to `on_message` there: a prefix in order, and everything once both sides are done |
| FlowWindow.ConnectionFlow.TryTake | aggregation/ConnectionFlow.h:11-19 | takes a slot exactly if no resume is owed and the window has room |
| FlowWindow.ConnectionFlow.FinishOne | aggregation/ConnectionFlow.h:22-32 | gives a slot back and asks for a resume exactly when that ends a full window |
| FlowWindow.ConnectionFlow.ConsumeResume | aggregation/ConnectionFlow.h:35-41 | answers whether a resume was owed, and clears it |
| FlowWindow.ConnectionFlow.ReleaseSlot | aggregation/ConnectionFlow.h:44-50 | gives a slot back without asking for a resume |
| FlowWindow.WindowOverRuns | aggregation/ConnectionFlow.h:11-50 | over any legal run the counter is the slots held, never above the window; the one who ends a full window is told to resume, and notices and their consumption alternate |
| CreditGate.DBCreditGate.TryAcquire | aggregation/backpressure.h:62-68 | succeeds exactly if the gate is open and has a credit, and then takes one |
| CreditGate.DBCreditGate.Release | aggregation/backpressure.h:81-88 | adds a credit unless the gate is closed or already has its limit |
| CreditGate.DBCreditToken.Release | aggregation/backpressure.h:126-130 | only the first release of a token reaches the gate |
| RouteClassifier.Classifier.Classify | aggregation/backpressure.h:41-49 | DB exactly if some DB prefix begins the message; fast prefixes never change an answer |
| Admission.DBWaitingQueue.AddWaitingTask | aggregation/backpressure.h:152-161 | appends the message unless the queue was stopped |
| Admission.DividePool.TryAddTask | aggregation/divide_pool.cpp:70-87 | the answer of the queue; the unfinished count grows exactly with an accepted task |
| Admission.DividePool.AddTask | aggregation/divide_pool.cpp:54-68 | the blocking form, up to its answer or to its going to sleep: Ok and Closed answer at once, a full open queue puts the thread to sleep with the task counted; the count goes down again exactly for Closed |
| Admission.Handler.OnMessage | aggregation/Handler_epoll_make.cpp:13-47 | for every outcome the whole effect on gate, waiting queue, pool and pause: Full and Closed leave no trace, Ok costs one credit exactly for a DB message that went to the pool |
| Admission.DispatchWaitingTask | aggregation/backpressure.h:188-218 | one round of the drain thread from any state, up to its end or its first wait: a stopped queue ends it, a closed gate puts the message back in front, a closed pool drops it and returns the credit, otherwise the oldest message moves on with an unreleased token and its resume is scheduled |
| AdmissionTurn.TurnIsTheHandlers | aggregation/Handler_epoll_make.cpp:13-47 | in every reachable state of the pipeline the undisturbed steps of an `on_message` are possible, and have the answer and the effect on gate, credits, queues, counter and pause that the handler's contract states for a message whose text begins with a DB prefix or does not |
| BoundedQueue.BoundedTaskQueue.TryPush | aggregation/bounded_task_queue.h:36-49 | result, new contents, full count, and which sleepers are woken, of the non-blocking push |
| BoundedQueue.BoundedTaskQueue.Push | aggregation/bounded_task_queue.h:51-63 | one critical section of the blocking push: Closed on a closed queue, asleep exactly on an open full one, otherwise the task is last, a consumer is woken, and at the low mark every producer |
| BoundedQueue.BoundedTaskQueue.Pop | aggregation/bounded_task_queue.h:65-83 | one critical section of pop: asleep exactly on an open empty queue, `false` exactly on a closed empty one, otherwise the first task, and producers are woken by the marks |
| BoundedQueue.BoundedTaskQueue.CloseTellsConsumers | aggregation/bounded_task_queue.h:90 | the step of the interleavings in which `close` wakes every sleeping consumer |
| BoundedQueue.BoundedTaskQueue.CloseTellsProducers | aggregation/bounded_task_queue.h:91 | and every sleeping producer |
| BoundedQueue.PopIsTold | aggregation/bounded_task_queue.h:65-71 | in every interleaving whoever is told `false` has seen the queue closed and everything pushed popped, whoever has to wait found it open with everything popped and is asleep, and all others get the oldest task not popped |
| BoundedQueue.NobodyIsKeptOut | aggregation/bounded_task_queue.h:36-92 | in every state every thread may push, pop and close, whichever sleepers the scheduler wakes |
| BoundedQueue.NoLostWakeup | aggregation/bounded_task_queue.h:36-92 | over every run, while open: if a producer sleeps, every free place is spoken for by a notified producer; if a consumer sleeps, every queued task is spoken for by a notified consumer; once `close` has notified, nobody sleeps |
| BoundedQueue.FirstInFirstOut | aggregation/bounded_task_queue.h:36-92 | in every interleaving the accepted pushes are the pops followed by the contents, never above the high mark |
| BoundedQueue.DrainAfterClose | aggregation/bounded_task_queue.h:65-92 | after close nothing is pushed any more, and what is queued is still popped in order |
| BlockingQueue.BlockingTaskQueue.Insert | aggregation/blockingqueue.cpp:6-9 | the task is filed last under its key |
| BlockingQueue.BlockingTaskQueue.Take | aggregation/blockingqueue.cpp:10-19 | exactly the tasks of the key, in order, and the key is gone |
| BlockingQueue.BlockingTaskQueue.TakeAll | aggregation/blockingqueue.cpp:20-28 | for every key exactly its tasks in order, and nothing stays |
| BlockingQueue.HandedOutAtMostOnce | aggregation/blockingqueue.cpp:6-28 | over every run, per key: filed tasks are those handed out followed by those still blocked, so each is handed out at most once |
| CoroutineProofs.EveryRunKeepsKeys | aggregation/DB_pool.cpp:125-212 | every run, shutdown included, keeps the traces and phases of keys, the registry, the guards and both counters consistent |
| CoroutineProofs.EveryRunKeeps | aggregation/thread_pool.cpp:22-75 | every run whose shutdown steps find no suspension in progress also keeps each flow at the one place where the state says it is |
| CoroutineTheorems.CoroutineExclusivity | aggregation/EventAwaiter.cpp:12-29 | in every run whose shutdown steps find no suspension in progress no two workers are on one coroutine, and while a worker is still in `await_suspend` neither a resume nor a wake-up task of that coroutine exists anywhere, `settle_pending`'s hands included |
| CoroutineTheorems.CarefulExactly | aggregation/Server.cpp:222-230 | after any such run the next step keeps this if and only if it is not `take_all` with a worker in `await_suspend`, nor a wake-up posted past an unfinished guard |
| TwoOnOne.SettlingPutsTwoOnOne | aggregation/Server.cpp:222-230 | from any state that such runs reach, while the work pool is open, with a worker in `await_suspend` and another one free, however long the work queue: `settle_pending` can put both on one coroutine |
| TwoOnOne.StoppedPoolPutsTwoOnOne | aggregation/DB_pool.cpp:134-148 | and so can a DB worker without a connection, for a key whose guard is unfinished, again whatever is queued |
| CoroutineTheorems.EveryFlowIsSomewhere | aggregation/work_pool.cpp:11-29 | with the work pool open, a flow that was submitted and has not given its slot back is queued, run, held under a key or in `on_event`'s hands, and no other flow is |
| CoroutineTheorems.NoFlowIsTwice | aggregation/EventAwaiter.cpp:12-29 | at most one queue entry, one worker, one key and one `on_event` have a flow, and only one of these four - except that a worker still in `await_suspend` has filed it already, under just that key |
| CoroutineTheorems.WakeUpFindsItsTask | aggregation/DB_pool.cpp:201-211 | in every run an `on_event(key)` comes after the query of the key was answered, or given up for want of a connection, and finds exactly the task suspended under the key, unless `take_all` has taken it |
| CoroutineSteps.WokenAfterTheAnswer | aggregation/DB_pool.cpp:134-211 | in every run a key whose wake-up was posted, is queued, being run or over had its query answered before, or given up by a worker without a connection |
| CoroutineSteps.NobodyIsStuck | aggregation/DB_pool.cpp:125-211 | in every run, shutdown included, the exact next steps of every worker, DB worker and other thread: an answered query waits for nothing but its suspend guard and its turn to add |
| CoroutineSteps.StepDoes | aggregation/thread_pool.cpp:22-75 | what each step does to both queues, counters, registry, suspend guards and the threads: what is handed on goes last in its queue, a wake-up is posted for just its key, no thread moves another |
| CoroutineTheorems.LookupsNeverBlock | aggregation/DB_pool.cpp:125-211 | the model's own lookups of a key never disable a step that the source would take |
| CoroutineTheorems.NeverFiledAgain | aggregation/context.cpp:47-49 | with fresh keys, a key whose task was handed out, by `on_event` or by `settle_pending`, is never filed again, so its task is handed out once |
| CoroutineTheorems.CountsAreExact | aggregation/thread_pool.cpp:77-109 | in every run the counters of work and DB pool are adders in progress plus queued plus running tasks, a worker between its hand-over and `finish_task` included; so the guard against going below zero never bites |
| CoroutineTheorems.WorkIdleIsForever | aggregation/thread_pool.cpp:93-100 | once the work pool is closed and its count has been seen as zero, nothing is queued or running in it in any later state |
| CoroutineTheorems.DbIdleIsForever | aggregation/DB_pool.cpp:100-211 | once the DB pool is closed and its count has been seen as zero, in every later state no query is queued or at a worker, and every query it ever accepted has had its wake-up posted, or refused by a closed work pool |
| TwoOnOne.SettlingBreaksExclusivity | aggregation/Server.cpp:222-230 | a concrete run in which `settle_pending` puts two workers on one coroutine |
| TwoOnOne.StoppedPoolBreaksExclusivity | aggregation/DB_pool.cpp:134-148 | a concrete run in which a DB worker without a connection does the same |
| ReaderControl.ReactorStepKeeps | aggregation/Reactor.cpp:174-337 | every reactor step keeps the connection's wake-up invariant: an owed resume has a worker about to check, a bucket or a pause that it waits behind, unless the race lost it; a pause has a retry or the message that it began with |
| ReaderControl.SlotStepKeeps | aggregation/Reactor.cpp:317-335 | so do taking and releasing a slot |
| ReaderControl.HandOverKeeps | aggregation/Handler_epoll_make.cpp:20-47 | so do parking a message and handing it to the parse pool |
| ReaderControl.DrainStepKeeps | aggregation/Server.cpp:111-117 | so do the drain thread's resume and its drop of a message |
| ReaderControl.WorkerStepKeeps | aggregation/thread_pool.cpp:59-65 | so do a worker's `finish_one` and its check of the pause flag |
| ReaderControl.StreamStep | aggregation/Reactor.cpp:296-337 | no reactor step loses, repeats or reorders a message of its connection, push-backs and interrupted turns included |
| ReaderControl.ReactorGoesOn | aggregation/Reactor.cpp:174-337 | at every point exactly which steps the reactor can take next: it never reads while a complete frame is there and goes on until paused, closed, out of slots or out of bytes |
| ReaderControl.ReactorSteps | aggregation/Reactor.cpp:174-337 | what each step of the reactor does to position, buffer, pause, buckets and window: only a parked or refused message pauses, only a resume or a retry ends a pause |
| Deafness.DeafExactly | aggregation/Reactor.cpp:174-337 | wherever its reactor stands, a connected connection is deaf if and only if no sequence of moves of reactor, workers and drain thread, which just posts no hopeless message, leads to its reactor taking up another message |
| Deafness.SilentExactly | aggregation/ConnectionFlow.h:11-50 | and that is so if and only if no bucket has it, none of its parked messages will be posted, and it was paused for such a message, is about to be with nobody looking, or lost a resume in the race |
| Deafness.DropSilencesExactly | aggregation/backpressure.h:215-216 | at every point of the reactor a drop is the end if and only if no bucket has the connection, no other message of it will be posted, and the DB side is what it waits for |
| Deafness.RaceSilencesExactly | aggregation/Reactor.cpp:216-223 | a worker's check in the middle of a resume or a retry is the end if and only if it races, is the last one due, no bucket has the connection, and no message of it will be posted |
| PipelineProofs.StepKeeps | aggregation/Server.cpp:100-118 | every step of any thread keeps all ledgers, queues, counters, byte streams and wake-up invariants of the whole server |
| PipelineProofs.ReleaseFindsRoom | aggregation/backpressure.h:81-88 | the release of an outstanding credit always finds the gate below its limit |
| PipelineSteps.StepDoes | aggregation/backpressure.h:41-218 | what each step of any thread does to messages, gate, credits, waiting queue, drain thread and parse pool: one message moves, to one next stage; queues are logs; a closed gate ignores releases |
| PipelineSteps.ConnectionIsTouched | aggregation/thread_pool.cpp:58-66 | what other threads do to a connection: no one but its reactor pauses, reads or closes it, a closed parse pool excepted; resumes come from the drain thread and from workers told so that find reading not paused |
| PipelineSteps.RuntimeTakesSteps | aggregation/divide_pool.cpp:34-48 | the coroutine runtime takes just its own steps inside the server: a parsed message is submitted as a flow, and the end of a flow asks for a resume exactly if it ends a full window |
| PipelineTheorems.ReachableByRuns | aggregation/Server.cpp:61-195 | the reachable states are exactly those that some run from the start leads to |
| PipelineTheorems.TextDecides | aggregation/backpressure.h:41-49 | in every reachable state a message is a DB message exactly if one of the DB prefixes begins its text, and the text is the one that its reactor cut and holds |
| PipelineTheorems.NobodyIsStuck | aggregation/Handler_epoll_make.cpp:13-47 | in every reachable state exactly which thread can take which step, by text, credits, room and flags: a message is admitted without a credit exactly if no DB prefix begins its text |
| PipelineTheorems.CreditLedger | aggregation/backpressure.h:57-135 | in every run with the gate open the missing credits are exactly the messages past admission whose text begins with a DB prefix and whose flow has not ended, failed parses included |
| PipelineTheorems.FlowHoldsItsCredit | aggregation/thread_pool.cpp:54-57 | through any number of queries a DB flow holds exactly one credit until the worker of its first non-suspended end has returned it |
| PipelineTheorems.WindowLedger | aggregation/thread_pool.cpp:58-66 | for every connection and interleaving `in_flight` is the number of its messages that have not given their slot back, at most the window; full says exactly that it is used up |
| StuckConnections.NeverStranded | aggregation/Reactor.cpp:174-337 | in every reachable state, of a connected connection outside `handle_read` with a complete frame at which nobody will look: it is blocked if and only if a resume was lost in the race or it was paused for a message that was dropped or will never be posted, and then deaf for good; otherwise its window is full and the next message of it to end resumes it |
| StuckConnections.PauseHasAnEnd | aggregation/Reactor.cpp:174-268 | in every reachable state a paused connection is deaf if and only if no bucket has it and no message of it can still be posted; it was then paused in vain |
| StuckConnections.NeverStrandedUndisturbed | aggregation/Reactor.cpp:216-223 | in runs without race and without a dropped message of it, while DB admission works, a connection at which nobody will look has a full window, and the next message of it to end resumes it |
| StuckConnections.DeadForGood | aggregation/Reactor.cpp:216-223 | a deaf connection never takes up another message, whatever the server does from then on |
| Forfeits.ForfeitsAfter | aggregation/divide_pool.cpp:34-48 | no step brings back the credit of a failed parse, nor, once the work pool is closed, that of a message that is being parsed, suspended or refused |
| Forfeits.HopelessStays | aggregation/backpressure.h:188-218 | a parked message that cannot be posted any more - no credit can come, or what it needs is closed - never will be |
| StuckConnections.NoCreditForGood | aggregation/backpressure.h:62-88 | once as many credits are forfeited as the gate has, no DB message is admitted in any later state |
| PipelineTheorems.OverForGood | aggregation/thread_pool.cpp:58-66 | a message that gave its slot back, or was dropped, never changes again: slots and credits are given back once |
| PipelineTheorems.LostMessagesFillTheWindow | aggregation/divide_pool.cpp:34-48 | as many dropped messages as the window has slots keep it full in every later state |
| PipelineTheorems.FailedParsesDrainTheGate | aggregation/divide_pool.cpp:34-48 | as many failed DB parses as the gate has credits, and no DB message is admitted any more |
| PipelineTheorems.GateAtRest | aggregation/divide_pool.cpp:34-48 | with the gate open and no DB message in progress, a DB message is admitted if and only if fewer parses have failed than the gate has credits |
| PipelineTheorems.WindowAtRest | aggregation/divide_pool.cpp:34-48 | with none of its messages in progress, a connection's window is full if and only if as many of them were dropped as it has slots |
| PipelineTheorems.StreamIsKept | aggregation/Reactor.cpp:296-337 | over every run of the whole server: the messages a connection took up, the one in its reactor's hands, then the decoding of buffer and unread bytes are the decoding of the input; a closed connection took up a prefix |
| PipelineTheorems.ParseCountIsExact | aggregation/divide_pool.cpp:54-87 | in every run the parse pool's counter is adders in progress plus queued plus parsing plus workers about to call `finish_task` |
| PipelineTheorems.ParseIdleIsForever | aggregation/Server.cpp:200-203 | once the parse pool is closed and its count has been seen as zero, in every later state no message is queued in it or being parsed, and every message it ever accepted was handed to the work pool or failed |
| PipelineTheorems.OneThreadPerCoroutine | aggregation/Box.h:11-30 | the whole pipeline inherits coroutine exclusivity |
| PipelineTheorems.LookupsNeverBlock | aggregation/backpressure.h:188-218 | the model's own lookups never disable a step that the source would take |
| RaceRun.RaceStrands | aggregation/Reactor.cpp:217-218 | for every window, number of credits and parse-queue capacity, and two or more workers: a reachable state with a stranded connection, nothing closed, nothing dropped and DB admission working |
| DropRun.DropStrands | aggregation/backpressure.h:215-216 | for every window, number of credits and parse-queue capacity, and two or more workers: a reachable state with a connection that died of a drop, without any race; stranded if and only if the window has more than one slot |
| DropRun.ClosedGateStrands | aggregation/backpressure.h:202-206 | and one whose connection was left behind without race or drop, by a gate that was closed while a message waited |
| FailureRuns.FailuresDrainTheGate | aggregation/divide_pool.cpp:34-48 | for every number of credits: a reachable state with an open gate that nobody uses and that admits no DB message |
| FailureRuns.FailuresStrand | aggregation/backpressure.h:202 | and one whose connection was left behind without race, drop or anything closed, by failed parses that took all credits |
| FailureRuns.FailuresFillTheWindow | aggregation/divide_pool.cpp:34-48 | for every window: a reachable state with a connected connection whose window is full of lost messages |
| ConnectBook.ConnectionBook.OnConnection | aggregation/connect_book.cpp:30-42 | registers a new socket under its own number without a group, otherwise changes nothing |
| ConnectBook.ConnectionBook.DisConnection | aggregation/connect_book.cpp:44-60 | removes the socket, its entry and its group membership |
| ConnectBook.ConnectionBook.Rebind | aggregation/connect_book.cpp:62-102 | moves the entry to the business fd and group, or refuses without a change |
| ConnectBook.ConnectionBook.SetGroup | aggregation/connect_book.cpp:104-118 | moves a registered fd to a group |
| ConnectBook.ConnectionBook.AssignGroup | aggregation/connect_book.cpp:120-140 | the loop over the list has the effect that the meaning below is about |
| ConnectBook.ConnectionBook.GroupVirtualFds | aggregation/connect_book.cpp:188-205 | for any group the query lists, each once, the indexed members that a scan of all live entries finds; for a group from 0 up of a coherent roster, that is the whole scan |
| ConnectBook.ConnectMeaning | aggregation/connect_book.cpp:30-42 | just one new entry, under the socket number and in no group, unless that number is registered |
| ConnectBook.DisconnectMeaning | aggregation/connect_book.cpp:44-60 | the connection's socket, entry and membership are gone, and nothing else |
| ConnectBook.RebindMeaning | aggregation/connect_book.cpp:62-102 | refused exactly for an unregistered connection or a business fd that another has; otherwise just its own entry moves to just that fd and group, and index and socket follow |
| ConnectBook.SetGroupMeaning | aggregation/connect_book.cpp:104-118 | just the entry under the fd is in just the new group, in entry and index; an unknown fd, or one already there, changes nothing |
| ConnectBook.OperationsAreLogged | aggregation/connect_book.cpp:7-140 | every operation that succeeds is the latest entry of the change log, under its name, fd and group; one that is refused is not logged |
| ConnectBook.NewConnectionCoherence | aggregation/connect_book.cpp:37-39 | a new connection keeps the roster coherent if and only if its number is not already a business fd |
| ConnectBook.CollisionBreaksRoster | aggregation/connect_book.cpp:37-39 | a concrete collision after which two sockets share an entry |
| ConnectBook.AssignGroupMeaning | aggregation/connect_book.cpp:120-140 | new members are exactly the registered fds of the list, old members not listed have no group, all else is unchanged |
| ConnectBook.AssignOrderIrrelevant | aggregation/connect_book.cpp:120-140 | neither order nor repetition in the list matters |
| ConnectBook.QueriesAgree | aggregation/connect_book.cpp:142-205 | the group index answers like a scan, and `connection_info` finds exactly the fd under which `find` finds that connection |
| ConnectBook.RosterStaysCoherent | aggregation/connect_book.cpp:21-140 | over every run of operations the socket index is a bijection onto the entries and the group index agrees with them |
| ConnectBook.ChangeLogIsGapless | aggregation/connect_book.cpp:7-19 | the change log holds the latest changes, numbered without a gap, at most 4096 of them |
| FrameworkCall.ParseFds | aggregation/FrameworkCall.cpp:14-23 | the split at commas, skipping empty parts, that the round trip is about |
| FrameworkCall.CommaSeparates | aggregation/FrameworkCall.cpp:14-23 | a comma separates two lists, whatever stands before and behind it |
| FrameworkCall.TextIsItsNumber | aggregation/FrameworkCall.cpp:8-12 | any text is read as white space, sign, digits and a tail, and as the number of its digits - at most 2^64 - 1, negated after a minus sign, 0 without digits |
| FrameworkCall.NegativeIsParsed | aggregation/FrameworkCall.cpp:8-12 | a printed negative number is read as its unsigned 64-bit negation, as section 7.22.1.4 of ISO C11 says |
| FrameworkCall.NarrowingIsModular | aggregation/FrameworkCall.cpp:88-89 | the narrowing cast gives the one 32-bit number that differs by a multiple of 2^32 |
| FrameworkCall.GroupRoundTrip | aggregation/FrameworkCall.cpp:84-91 | every 32-bit group, negative ones included, survives printing, `strtoull` and the narrowing cast |
| FrameworkCall.FdsRoundTrip | aggregation/FrameworkCall.cpp:137-147 | every list of unsigned 64-bit fds survives joining and parsing |
| FrameworkCall.DivideGpRoundTrip | aggregation/FrameworkCall.cpp:137-149 | the command that `divide_gp` sends is `assign_group` of exactly the given group and list |
| FrameworkCall.SetGroupRoundTrip | aggregation/FrameworkCall.cpp:105-111 | the text of `set_group` moves just the entry under the given fd to just the given group |
| FrameworkCall.BindRoundTrip | aggregation/FrameworkCall.cpp:93-103 | the text of `bind` moves just the entry of the task's connection to just the given fd and group; without a task, a connection, a registration or a free fd it names its error and changes nothing |
| FrameworkCall.ShortForms | aggregation/FrameworkCall.cpp:84-122 | a command without its list, group or reason means no members, no group and an empty reason |
| FrameworkCall.Framework.HandleBuiltin | aggregation/FrameworkCall.cpp:64-125 | each of the six built-in commands changes the roster, reaches connections and answers as specified; a missing roster, provider, handler, connection or argument gives the source's error and changes nothing |
| FrameworkCall.Framework.Call | aggregation/FrameworkCall.cpp:44-62 | a stopped framework and a missing roster refuse every command; otherwise the built-in answers, and a registered handler only where no built-in took the command |
| FrameworkCall.BuiltinsAreNotPassedOn | aggregation/FrameworkCall.cpp:44-125 | whatever their arguments and whatever is registered under their names, the six built-in commands are never passed on, and every other command is, with the roster as it was |
| FrameworkCall.FailuresChangeNothing | aggregation/FrameworkCall.cpp:64-125 | a built-in that fails names its error and leaves the roster as it was; with too few arguments it always fails and reaches nobody |
| FrameworkCall.GroupSendIsScan | aggregation/connect_book.cpp:171-236 | on a coherent roster a message for a group from 0 up reaches just the live connections that a scan finds in it and that can send |
| FrameworkCall.Framework.DivideGp | aggregation/FrameworkCall.cpp:137-149 | through text and back it assigns the given group and fds, unless the framework is stopped or has no roster |
| FrameworkCall.Framework.SendToGp | aggregation/FrameworkCall.cpp:132-135 | through text and back, negative groups included, it reaches the reachable members of the given group and changes nothing |
| FrameworkCall.Framework.SendToSb | aggregation/FrameworkCall.cpp:127-130 | through text and back it sends to the given fd, and changes nothing |
| FrameworkCall.Framework.CloseConn | aggregation/FrameworkCall.cpp:151-154 | through text and back it hands the connection of the given fd to the close handler, and changes nothing |

## Left out

- Sockets, epoll, eventfd and accept: reads and writes are arbitrary outcomes, wake-ups are the pending buckets; epoll masks are not modelled, so nothing is said about EPOLLOUT.
- MySQL, result rows and the connection pool: a query is one step that takes any time.
- Real time: heartbeats, timeouts of `wait_idle`, the 2 ms flush of the batch sender.
- Metrics, logger, `BatchSender`, session handles and the Python scripts: reporting and signalling only.
- What a send function, the close handler and a registered command do: their answers are inputs.
- Completeness of a graceful shutdown: README.md:458-466 names its gaps; proved are at-most-once hand-out, what idle means in each pool, exactly when exclusivity ends, and what the drain thread's drops do.
- Thread loops as methods: the loops of `thread_pool::worker`, `divide_pool::worker`, `DB_pool::worker_loop` and the reactor are steps of a scheduler, because their point is the interleaving; reading a box's result and the thread-local hand-over are not shown.
- Business code: one work function starts at most one coroutine, which may suspend any number of times; work that business code submits by itself, with the connection of its worker, is not modelled.
- A missing handler or reactor on a connection: every connection has both, as after `add_connection`.
- Exceptions thrown by the drain thread's dispatch: they count as a refusal, as in the source.
- Reactor threads: each connection's reactor is free to interleave with every other's, which allows the runs of any number of reactors and more.
- The order in which several threads take tasks from one queue, and the capacity of the work and DB queues: in `Pipeline` any free worker may take the head, and pushes to these two queues never block, which only allows more runs; `BoundedQueue` covers blocking.
- `set_watermarks` and the low-water callback: never used with an effect; a divide retry wakes the reactor at once.
- Overflow of 64-bit versions, keys and counters.
- What becomes of a message that can still be posted, or a window that is full: nothing is proved about when its turn comes.
- A worker's load of `reading_paused` and its push into the resume bucket (aggregation/thread_pool.cpp:61-63) are one step.
- Shutdown steps of the runtime inside `Pipeline`: its runs have those of them that find no suspension in progress; `CoroutineTheorems` says what the others do.
- The order in which `settle_pending` hands tasks on: free, as the registry is unordered.
- Parse threads: any number of messages may be with parse workers at once, which only allows more runs.
- Admission.Handler.OnMessage: says what the call does when no other thread acts during it; the same code open to others is `Pipeline`'s steps, and `AdmissionTurn.TurnIsTheHandlers` joins the two.
- PipelineTheorems.CreditLedger: says nothing about a closed gate, which ignores releases (`PipelineSteps.StepDoes`).
- CoroutineTheorems.CoroutineExclusivity: for runs whose shutdown steps find no suspension in progress, because the first other step ends it (`CarefulExactly`).
- ConnectBook.RosterStaysCoherent: for runs in which a new socket's number is not a business fd, because it is false otherwise.
