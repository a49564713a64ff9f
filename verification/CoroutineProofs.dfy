/** Every step of the coroutine runtime keeps its invariants: those of the keys always, those of the flows as long as
    the step respects the suspend guards. */
module CoroutineProofs {
  import BQ = BlockingQueue
  import opened IdleCount
  import opened CoroutineRuntime

  predicate Resting(x: Worker) {
    x.Idle? || x.Done? || x.Checking? || (x.Handing? && x.tasks == [])
  }

  predicate CanDbWake(s: Runtime, d: Thread) {
    CanDbPost(s, d) || CanDbPostStopped(s, d)
  }

  // ---------------------------------------------------------------- each step keeps the key invariants

  lemma TracesOffDuty(s: Runtime, w: Thread, x: Worker)
    requires TracesInv(s) && PhasesInv(s)
    requires w in s.workers && Resting(s.workers[w]) && Resting(x)
    ensures TracesInv(Become(s, w, x)) && PhasesInv(Become(s, w, x))
  {
  }

  lemma RegistryOffDuty(s: Runtime, w: Thread, x: Worker)
    requires TracesInv(s) && RegistryInv(s) && OwnersInv(s)
    requires w in s.workers && Resting(s.workers[w]) && Resting(x)
    ensures RegistryInv(Become(s, w, x)) && OwnersInv(Become(s, w, x))
  {
  }

  lemma KeysDbFinish(s: Runtime, d: Thread)
    requires TracesInv(s) && PhasesInv(s) && RegistryInv(s) && OwnersInv(s)
    requires CanDbFinish(s, d)
    ensures TracesInv(DidDbFinish(s, d)) && PhasesInv(DidDbFinish(s, d))
    ensures RegistryInv(DidDbFinish(s, d)) && OwnersInv(DidDbFinish(s, d))
  {
    TracesDbFinish(s, d);
    RegistryDbFinish(s, d);
  }

  lemma TracesDbFinish(s: Runtime, d: Thread)
    requires TracesInv(s) && PhasesInv(s)
    requires CanDbFinish(s, d)
    ensures TracesInv(DidDbFinish(s, d)) && PhasesInv(DidDbFinish(s, d))
  {
  }

  lemma RegistryDbFinish(s: Runtime, d: Thread)
    requires TracesInv(s) && RegistryInv(s) && OwnersInv(s)
    requires CanDbFinish(s, d)
    ensures RegistryInv(DidDbFinish(s, d)) && OwnersInv(DidDbFinish(s, d))
  {
  }

  lemma KeysSettleCredit(s: Runtime, w: Thread)
    requires TracesInv(s) && PhasesInv(s) && RegistryInv(s) && OwnersInv(s)
    requires CanSettleCredit(s, w)
    ensures TracesInv(CreditSettled(s, w)) && PhasesInv(CreditSettled(s, w))
    ensures RegistryInv(CreditSettled(s, w)) && OwnersInv(CreditSettled(s, w))
  {
    TracesSettleCredit(s, w);
    RegistrySettleCredit(s, w);
  }

  lemma TracesSettleCredit(s: Runtime, w: Thread)
    requires TracesInv(s) && PhasesInv(s)
    requires CanSettleCredit(s, w)
    ensures TracesInv(CreditSettled(s, w)) && PhasesInv(CreditSettled(s, w))
  {
  }

  lemma RegistrySettleCredit(s: Runtime, w: Thread)
    requires TracesInv(s) && RegistryInv(s) && OwnersInv(s)
    requires CanSettleCredit(s, w)
    ensures RegistryInv(CreditSettled(s, w)) && OwnersInv(CreditSettled(s, w))
  {
  }

  lemma TracesGiveSlot(s: Runtime, w: Thread, need: bool)
    requires TracesInv(s) && PhasesInv(s)
    requires CanGiveSlot(s, w)
    ensures TracesInv(SlotGiven(s, w, need)) && PhasesInv(SlotGiven(s, w, need))
  {
  }

  lemma RegistryGiveSlot(s: Runtime, w: Thread, need: bool)
    requires TracesInv(s) && RegistryInv(s) && OwnersInv(s)
    requires CanGiveSlot(s, w)
    ensures RegistryInv(SlotGiven(s, w, need)) && OwnersInv(SlotGiven(s, w, need))
  {
  }

  lemma TracesEnd(s: Runtime, w: Thread)
    requires TracesInv(s) && PhasesInv(s)
    requires CanEnd(s, w)
    ensures TracesInv(Ended(s, w)) && PhasesInv(Ended(s, w))
  {
  }

  lemma RegistryEnd(s: Runtime, w: Thread)
    requires TracesInv(s) && RegistryInv(s) && OwnersInv(s)
    requires CanEnd(s, w)
    ensures RegistryInv(Ended(s, w)) && OwnersInv(Ended(s, w))
  {
  }

  lemma TracesLeave(s: Runtime, w: Thread)
    requires TracesInv(s) && PhasesInv(s)
    requires CanLeave(s, w)
    ensures TracesInv(LeftSuspended(s, w)) && PhasesInv(LeftSuspended(s, w))
  {
  }

  lemma RegistryLeave(s: Runtime, w: Thread)
    requires TracesInv(s) && RegistryInv(s) && OwnersInv(s)
    requires CanLeave(s, w)
    ensures RegistryInv(LeftSuspended(s, w)) && OwnersInv(LeftSuspended(s, w))
  {
  }

  lemma KeysSubmit(s: Runtime, m: Flow)
    requires TracesInv(s) && PhasesInv(s) && RegistryInv(s) && OwnersInv(s)
    requires CanSubmit(s, m)
    ensures TracesInv(PushFlow(s, m)) && PhasesInv(PushFlow(s, m))
    ensures RegistryInv(PushFlow(s, m)) && OwnersInv(PushFlow(s, m))
  {
    TracesSubmit(s, m);
    RegistrySubmit(s, m);
  }

  lemma TracesSubmit(s: Runtime, m: Flow)
    requires TracesInv(s) && PhasesInv(s)
    requires CanSubmit(s, m)
    ensures TracesInv(PushFlow(s, m)) && PhasesInv(PushFlow(s, m))
  {
  }

  lemma RegistrySubmit(s: Runtime, m: Flow)
    requires TracesInv(s) && RegistryInv(s) && OwnersInv(s)
    requires CanSubmit(s, m)
    ensures RegistryInv(PushFlow(s, m)) && OwnersInv(PushFlow(s, m))
  {
  }

  lemma KeysPopFlow(s: Runtime, w: Thread)
    requires TracesInv(s) && PhasesInv(s) && RegistryInv(s)
    requires CanPop(s, w) && s.work[s.workHead].RunFlow?
    ensures TracesInv(Popped(s, w)) && PhasesInv(Popped(s, w)) && RegistryInv(Popped(s, w))
  {
  }

  lemma OwnersPopFlow(s: Runtime, w: Thread)
    requires OwnersInv(s) && CanPop(s, w) && s.work[s.workHead].RunFlow?
    ensures OwnersInv(Popped(s, w))
  {
  }

  lemma TracesPopWake(s: Runtime, w: Thread)
    requires TracesInv(s) && PhasesInv(s)
    requires CanPop(s, w) && s.work[s.workHead].WakeUp?
    ensures TracesInv(Popped(s, w)) && PhasesInv(Popped(s, w))
  {
  }

  lemma RegistryPopWake(s: Runtime, w: Thread)
    requires TracesInv(s) && RegistryInv(s)
    requires CanPop(s, w) && s.work[s.workHead].WakeUp?
    ensures RegistryInv(Popped(s, w))
  {
  }

  lemma OwnersPopWake(s: Runtime, w: Thread)
    requires TracesInv(s) && OwnersInv(s)
    requires CanPop(s, w) && s.work[s.workHead].WakeUp?
    ensures OwnersInv(Popped(s, w))
  {
  }

  lemma TracesSuspend(s: Runtime, w: Thread, k: BQ.Key)
    requires TracesInv(s) && PhasesInv(s)
    requires CanSuspend(s, w, k)
    ensures TracesInv(DidSuspend(s, w, k)) && PhasesInv(DidSuspend(s, w, k))
  {
  }

  lemma RegistrySuspend(s: Runtime, w: Thread, k: BQ.Key)
    requires RegistryInv(s) && CanSuspend(s, w, k)
    ensures RegistryInv(DidSuspend(s, w, k))
  {
  }

  lemma OwnersSuspend(s: Runtime, w: Thread, k: BQ.Key)
    requires TracesInv(s) && OwnersInv(s) && CanSuspend(s, w, k)
    ensures OwnersInv(DidSuspend(s, w, k))
  {
  }

  lemma TracesSubmitQuery(s: Runtime, w: Thread)
    requires TracesInv(s) && PhasesInv(s)
    requires CanSubmitQuery(s, w) && !s.dbClosed
    ensures TracesInv(DidSubmitQuery(s, w)) && PhasesInv(DidSubmitQuery(s, w))
  {
  }

  lemma RegistrySubmitQuery(s: Runtime, w: Thread)
    requires TracesInv(s) && RegistryInv(s)
    requires CanSubmitQuery(s, w) && !s.dbClosed
    ensures RegistryInv(DidSubmitQuery(s, w))
  {
  }

  lemma OwnersSubmitQuery(s: Runtime, w: Thread)
    requires TracesInv(s) && OwnersInv(s)
    requires CanSubmitQuery(s, w) && !s.dbClosed
    ensures OwnersInv(DidSubmitQuery(s, w))
  {
  }

  lemma TracesSubmitRefused(s: Runtime, w: Thread)
    requires TracesInv(s) && PhasesInv(s)
    requires CanSubmitQuery(s, w) && s.dbClosed
    ensures TracesInv(DidSubmitQuery(s, w)) && PhasesInv(DidSubmitQuery(s, w))
  {
  }

  lemma RegistrySubmitRefused(s: Runtime, w: Thread)
    requires TracesInv(s) && RegistryInv(s) && OwnersInv(s)
    requires CanSubmitQuery(s, w) && s.dbClosed
    ensures RegistryInv(DidSubmitQuery(s, w)) && OwnersInv(DidSubmitQuery(s, w))
  {
  }

  lemma TracesTakeNone(s: Runtime, w: Thread)
    requires TracesInv(s) && PhasesInv(s)
    requires CanTake(s, w) && s.workers[w].key !in s.registry
    ensures TracesInv(TookBlocked(s, w)) && PhasesInv(TookBlocked(s, w))
  {
  }

  lemma RegistryTakeNone(s: Runtime, w: Thread)
    requires TracesInv(s) && RegistryInv(s)
    requires CanTake(s, w) && s.workers[w].key !in s.registry
    ensures RegistryInv(TookBlocked(s, w))
  {
  }

  lemma OwnersTakeNone(s: Runtime, w: Thread)
    requires TracesInv(s) && OwnersInv(s)
    requires CanTake(s, w) && s.workers[w].key !in s.registry
    ensures OwnersInv(TookBlocked(s, w))
  {
  }

  lemma TracesTakeOne(s: Runtime, w: Thread)
    requires TracesInv(s) && PhasesInv(s)
    requires CanTake(s, w) && s.workers[w].key in s.registry
    ensures TracesInv(TookBlocked(s, w)) && PhasesInv(TookBlocked(s, w))
  {
  }

  lemma RegistryTakeOne(s: Runtime, w: Thread)
    requires TracesInv(s) && RegistryInv(s)
    requires CanTake(s, w) && s.workers[w].key in s.registry
    ensures RegistryInv(TookBlocked(s, w))
  {
  }

  lemma OwnersTakeOne(s: Runtime, w: Thread)
    requires TracesInv(s) && OwnersInv(s)
    requires CanTake(s, w) && s.workers[w].key in s.registry
    ensures OwnersInv(TookBlocked(s, w))
  {
  }

  lemma TracesPostResume(s: Runtime, w: Thread)
    requires TracesInv(s) && PhasesInv(s)
    requires CanPostResume(s, w) && !s.workClosed
    ensures TracesInv(PostedResume(s, w)) && PhasesInv(PostedResume(s, w))
  {
  }

  lemma RegistryPostResume(s: Runtime, w: Thread)
    requires TracesInv(s) && RegistryInv(s) && OwnersInv(s)
    requires CanPostResume(s, w) && !s.workClosed
    ensures RegistryInv(PostedResume(s, w)) && OwnersInv(PostedResume(s, w))
  {
  }

  lemma KeysResumeRefused(s: Runtime, w: Thread)
    requires TracesInv(s) && PhasesInv(s) && RegistryInv(s) && OwnersInv(s)
    requires CanPostResume(s, w) && s.workClosed
    ensures TracesInv(PostedResume(s, w)) && PhasesInv(PostedResume(s, w))
    ensures RegistryInv(PostedResume(s, w)) && OwnersInv(PostedResume(s, w))
  {
    TracesResumeRefused(s, w);
    RegistryResumeRefused(s, w);
  }

  lemma TracesResumeRefused(s: Runtime, w: Thread)
    requires TracesInv(s) && PhasesInv(s)
    requires CanPostResume(s, w) && s.workClosed
    ensures TracesInv(PostedResume(s, w)) && PhasesInv(PostedResume(s, w))
  {
  }

  lemma RegistryResumeRefused(s: Runtime, w: Thread)
    requires TracesInv(s) && RegistryInv(s) && OwnersInv(s)
    requires CanPostResume(s, w) && s.workClosed
    ensures RegistryInv(PostedResume(s, w)) && OwnersInv(PostedResume(s, w))
  {
  }

  lemma TracesDbPop(s: Runtime, d: Thread)
    requires TracesInv(s) && PhasesInv(s)
    requires CanDbPop(s, d)
    ensures TracesInv(DbPopped(s, d)) && PhasesInv(DbPopped(s, d))
  {
  }

  lemma RegistryDbPop(s: Runtime, d: Thread)
    requires TracesInv(s) && RegistryInv(s) && OwnersInv(s)
    requires CanDbPop(s, d)
    ensures RegistryInv(DbPopped(s, d)) && OwnersInv(DbPopped(s, d))
  {
  }

  lemma KeysDbAnswer(s: Runtime, d: Thread)
    requires TracesInv(s) && PhasesInv(s) && RegistryInv(s) && OwnersInv(s)
    requires CanDbAnswer(s, d)
    ensures TracesInv(DbAnswered(s, d)) && PhasesInv(DbAnswered(s, d))
    ensures RegistryInv(DbAnswered(s, d)) && OwnersInv(DbAnswered(s, d))
  {
    TracesDbAnswer(s, d);
    RegistryDbAnswer(s, d);
  }

  lemma TracesDbAnswer(s: Runtime, d: Thread)
    requires TracesInv(s) && PhasesInv(s)
    requires CanDbAnswer(s, d)
    ensures TracesInv(DbAnswered(s, d)) && PhasesInv(DbAnswered(s, d))
  {
  }

  lemma RegistryDbAnswer(s: Runtime, d: Thread)
    requires TracesInv(s) && RegistryInv(s) && OwnersInv(s)
    requires CanDbAnswer(s, d)
    ensures RegistryInv(DbAnswered(s, d)) && OwnersInv(DbAnswered(s, d))
  {
  }

  lemma TracesDbPost(s: Runtime, d: Thread)
    requires TracesInv(s) && PhasesInv(s)
    requires CanDbWake(s, d) && !s.workClosed
    ensures TracesInv(DbPosted(s, d)) && PhasesInv(DbPosted(s, d))
  {
  }

  lemma RegistryDbPost(s: Runtime, d: Thread)
    requires TracesInv(s) && RegistryInv(s) && OwnersInv(s)
    requires CanDbWake(s, d) && !s.workClosed
    ensures RegistryInv(DbPosted(s, d)) && OwnersInv(DbPosted(s, d))
  {
  }

  lemma TracesWakeRefused(s: Runtime, d: Thread)
    requires TracesInv(s) && PhasesInv(s)
    requires CanDbWake(s, d) && s.workClosed
    ensures TracesInv(DbPosted(s, d)) && PhasesInv(DbPosted(s, d))
  {
  }

  lemma RegistryWakeRefused(s: Runtime, d: Thread)
    requires TracesInv(s) && RegistryInv(s) && OwnersInv(s)
    requires CanDbWake(s, d) && s.workClosed
    ensures RegistryInv(DbPosted(s, d)) && OwnersInv(DbPosted(s, d))
  {
  }

  lemma KeysTakeAll(s: Runtime)
    requires TracesInv(s) && PhasesInv(s) && RegistryInv(s) && OwnersInv(s)
    requires true
    ensures TracesInv(TookAll(s)) && PhasesInv(TookAll(s)) && RegistryInv(TookAll(s)) && OwnersInv(TookAll(s))
  {
  }

  lemma TracesPostSettled(s: Runtime, k: BQ.Key)
    requires TracesInv(s) && PhasesInv(s)
    requires CanPostSettled(s, k) && !s.workClosed
    ensures TracesInv(PostedSettled(s, k)) && PhasesInv(PostedSettled(s, k))
  {
  }

  lemma RegistryPostSettled(s: Runtime, k: BQ.Key)
    requires TracesInv(s) && RegistryInv(s) && OwnersInv(s)
    requires CanPostSettled(s, k) && !s.workClosed
    ensures RegistryInv(PostedSettled(s, k)) && OwnersInv(PostedSettled(s, k))
  {
  }

  lemma KeysSettledRefused(s: Runtime, k: BQ.Key)
    requires TracesInv(s) && PhasesInv(s) && RegistryInv(s) && OwnersInv(s)
    requires CanPostSettled(s, k) && s.workClosed
    ensures TracesInv(PostedSettled(s, k)) && PhasesInv(PostedSettled(s, k))
    ensures RegistryInv(PostedSettled(s, k)) && OwnersInv(PostedSettled(s, k))
  {
    TracesSettledRefused(s, k);
    RegistrySettledRefused(s, k);
  }

  lemma TracesSettledRefused(s: Runtime, k: BQ.Key)
    requires TracesInv(s) && PhasesInv(s)
    requires CanPostSettled(s, k) && s.workClosed
    ensures TracesInv(PostedSettled(s, k)) && PhasesInv(PostedSettled(s, k))
  {
  }

  lemma RegistrySettledRefused(s: Runtime, k: BQ.Key)
    requires TracesInv(s) && RegistryInv(s) && OwnersInv(s)
    requires CanPostSettled(s, k) && s.workClosed
    ensures RegistryInv(PostedSettled(s, k)) && OwnersInv(PostedSettled(s, k))
  {
  }

  // ---------------------------------------------------------------- each careful step keeps the flow invariants

  /** The flow that a wake-up is about to take is suspended: its worker has left `await_suspend`. */
  ghost predicate WakingIsSuspended(s: Runtime, w: Thread) {
    && w in s.workers && s.workers[w].OnEvent? && s.workers[w].key in s.keys
    && s.keys[s.workers[w].key].flow in s.place
    && s.place[s.keys[s.workers[w].key].flow] == Suspended(s.workers[w].key)
  }

  lemma WakingFlow(s: Runtime, w: Thread)
    requires Inv(s) && CanTake(s, w) && s.workers[w].key in s.registry
    ensures WakingIsSuspended(s, w)
  {
    assert BlockedFlowInv(s, s.workers[w].key);
  }

  lemma FlowsOffDuty(s: Runtime, w: Thread, x: Worker)
    requires PlacesInv(s) && WaitingInv(s) && OccupiedInv(s) && WakesInv(s)
    requires w in s.workers && Resting(s.workers[w]) && Resting(x)
    ensures PlacesInv(Become(s, w, x)) && WaitingInv(Become(s, w, x))
    ensures OccupiedInv(Become(s, w, x)) && WakesInv(Become(s, w, x))
  {
  }

  lemma FlowsDbFinish(s: Runtime, d: Thread)
    requires PlacesInv(s) && WaitingInv(s) && OccupiedInv(s) && WakesInv(s)
    requires CanDbFinish(s, d)
    ensures PlacesInv(DidDbFinish(s, d)) && WaitingInv(DidDbFinish(s, d))
    ensures OccupiedInv(DidDbFinish(s, d)) && WakesInv(DidDbFinish(s, d))
  {
  }

  lemma FlowsSettleCredit(s: Runtime, w: Thread)
    requires PlacesInv(s) && WaitingInv(s) && OccupiedInv(s) && WakesInv(s)
    requires CanSettleCredit(s, w)
    ensures PlacesInv(CreditSettled(s, w)) && WaitingInv(CreditSettled(s, w))
    ensures OccupiedInv(CreditSettled(s, w)) && WakesInv(CreditSettled(s, w))
  {
  }

  lemma PlacesGiveSlot(s: Runtime, w: Thread, need: bool)
    requires PlacesInv(s)
    requires CanGiveSlot(s, w)
    ensures PlacesInv(SlotGiven(s, w, need))
  {
  }

  lemma WaitingGiveSlot(s: Runtime, w: Thread, need: bool)
    requires PlacesInv(s) && WaitingInv(s)
    requires CanGiveSlot(s, w)
    ensures WaitingInv(SlotGiven(s, w, need))
  {
  }

  lemma OccupiedGiveSlot(s: Runtime, w: Thread, need: bool)
    requires PlacesInv(s) && OccupiedInv(s) && WakesInv(s)
    requires CanGiveSlot(s, w)
    ensures OccupiedInv(SlotGiven(s, w, need)) && WakesInv(SlotGiven(s, w, need))
  {
  }

  lemma FlowsEnd(s: Runtime, w: Thread)
    requires PlacesInv(s) && WaitingInv(s) && OccupiedInv(s) && WakesInv(s)
    requires CanEnd(s, w)
    ensures PlacesInv(Ended(s, w)) && WaitingInv(Ended(s, w)) && OccupiedInv(Ended(s, w)) && WakesInv(Ended(s, w))
  {
  }

  lemma PlacesLeave(s: Runtime, w: Thread)
    requires PlacesInv(s)
    requires CanLeave(s, w)
    ensures PlacesInv(LeftSuspended(s, w))
  {
  }

  lemma WaitingLeave(s: Runtime, w: Thread)
    requires PlacesInv(s) && WaitingInv(s) && TracesInv(s) && OneTaskEach(s.registry, s.keys)
    requires CanLeave(s, w)
    ensures WaitingInv(LeftSuspended(s, w))
  {
  }

  lemma OccupiedLeave(s: Runtime, w: Thread)
    requires PlacesInv(s) && OccupiedInv(s) && WaitingInv(s) && TracesInv(s) && WakesInv(s)
    requires CanLeave(s, w)
    ensures OccupiedInv(LeftSuspended(s, w)) && WakesInv(LeftSuspended(s, w))
  {
  }

  lemma FlowsSubmit(s: Runtime, m: Flow)
    requires PlacesInv(s) && TracesInv(s) && WaitingInv(s) && OccupiedInv(s) && WakesInv(s)
    requires CanSubmit(s, m)
    ensures PlacesInv(PushFlow(s, m)) && WaitingInv(PushFlow(s, m))
    ensures OccupiedInv(PushFlow(s, m)) && WakesInv(PushFlow(s, m))
  {
  }

  lemma PlacesPopFlow(s: Runtime, w: Thread)
    requires PlacesInv(s)
    requires CanPop(s, w) && s.work[s.workHead].RunFlow?
    ensures PlacesInv(Popped(s, w))
  {
  }

  lemma WaitingPopFlow(s: Runtime, w: Thread)
    requires PlacesInv(s) && WaitingInv(s)
    requires CanPop(s, w) && s.work[s.workHead].RunFlow?
    ensures WaitingInv(Popped(s, w))
  {
  }

  lemma OccupiedPopFlow(s: Runtime, w: Thread)
    requires PlacesInv(s) && OccupiedInv(s) && WakesInv(s)
    requires CanPop(s, w) && s.work[s.workHead].RunFlow?
    ensures OccupiedInv(Popped(s, w)) && WakesInv(Popped(s, w))
  {
  }

  lemma PlacesPopWake(s: Runtime, w: Thread)
    requires PlacesInv(s)
    requires CanPop(s, w) && s.work[s.workHead].WakeUp?
    ensures PlacesInv(Popped(s, w))
  {
  }

  lemma WaitingPopWake(s: Runtime, w: Thread)
    requires WaitingInv(s)
    requires CanPop(s, w) && s.work[s.workHead].WakeUp?
    ensures WaitingInv(Popped(s, w))
  {
  }

  lemma OccupiedPopWake(s: Runtime, w: Thread)
    requires OccupiedInv(s) && WakesInv(s) && TracesInv(s)
    requires CanPop(s, w) && s.work[s.workHead].WakeUp?
    ensures OccupiedInv(Popped(s, w)) && WakesInv(Popped(s, w))
  {
  }

  lemma PlacesSuspend(s: Runtime, w: Thread, k: BQ.Key)
    requires PlacesInv(s)
    requires CanSuspend(s, w, k)
    ensures PlacesInv(DidSuspend(s, w, k))
  {
  }

  lemma WaitingSuspend(s: Runtime, w: Thread, k: BQ.Key)
    requires PlacesInv(s) && WaitingInv(s) && RegistryInv(s)
    requires CanSuspend(s, w, k)
    ensures WaitingInv(DidSuspend(s, w, k))
  {
  }

  lemma OccupiedSuspend(s: Runtime, w: Thread, k: BQ.Key)
    requires PlacesInv(s) && OccupiedInv(s) && RegistryInv(s) && WakesInv(s)
    requires CanSuspend(s, w, k)
    ensures OccupiedInv(DidSuspend(s, w, k)) && WakesInv(DidSuspend(s, w, k))
  {
  }

  lemma PlacesSubmitQuery(s: Runtime, w: Thread)
    requires PlacesInv(s)
    requires CanSubmitQuery(s, w) && !s.dbClosed
    ensures PlacesInv(DidSubmitQuery(s, w))
  {
  }

  lemma WaitingSubmitQuery(s: Runtime, w: Thread)
    requires WaitingInv(s)
    requires CanSubmitQuery(s, w) && !s.dbClosed
    ensures WaitingInv(DidSubmitQuery(s, w))
  {
  }

  lemma OccupiedSubmitQuery(s: Runtime, w: Thread)
    requires PlacesInv(s) && OccupiedInv(s) && WakesInv(s)
    requires CanSubmitQuery(s, w) && !s.dbClosed
    ensures OccupiedInv(DidSubmitQuery(s, w)) && WakesInv(DidSubmitQuery(s, w))
  {
  }

  lemma PlacesSubmitRefused(s: Runtime, w: Thread)
    requires PlacesInv(s)
    requires CanSubmitQuery(s, w) && s.dbClosed
    ensures PlacesInv(DidSubmitQuery(s, w))
  {
  }

  lemma WaitingSubmitRefused(s: Runtime, w: Thread)
    requires WaitingInv(s)
    requires CanSubmitQuery(s, w) && s.dbClosed
    ensures WaitingInv(DidSubmitQuery(s, w))
  {
  }

  lemma OccupiedSubmitRefused(s: Runtime, w: Thread)
    requires PlacesInv(s) && OccupiedInv(s) && WakesInv(s)
    requires CanSubmitQuery(s, w) && s.dbClosed
    ensures OccupiedInv(DidSubmitQuery(s, w)) && WakesInv(DidSubmitQuery(s, w))
  {
  }

  lemma PlacesTakeNone(s: Runtime, w: Thread)
    requires PlacesInv(s)
    requires CanTake(s, w) && s.workers[w].key !in s.registry
    ensures PlacesInv(TookBlocked(s, w))
  {
  }

  lemma WaitingTakeNone(s: Runtime, w: Thread)
    requires PlacesInv(s) && WaitingInv(s) && RegistryInv(s)
    requires CanTake(s, w) && s.workers[w].key !in s.registry
    ensures WaitingInv(TookBlocked(s, w))
  {
  }

  lemma OccupiedTakeNone(s: Runtime, w: Thread)
    requires PlacesInv(s) && OccupiedInv(s) && RegistryInv(s) && WakesInv(s)
    requires CanTake(s, w) && s.workers[w].key !in s.registry
    ensures OccupiedInv(TookBlocked(s, w)) && WakesInv(TookBlocked(s, w))
  {
  }

  lemma PlacesTakeOne(s: Runtime, w: Thread)
    requires PlacesInv(s) && RegistryInv(s) && WakingIsSuspended(s, w)
    requires CanTake(s, w) && s.workers[w].key in s.registry
    ensures PlacesInv(TookBlocked(s, w))
  {
  }

  lemma WaitingTakeOne(s: Runtime, w: Thread)
    requires PlacesInv(s) && WaitingInv(s) && TracesInv(s) && RegistryInv(s) && WakingIsSuspended(s, w)
    requires CanTake(s, w) && s.workers[w].key in s.registry
    ensures WaitingInv(TookBlocked(s, w))
  {
    var r := TookBlocked(s, w);
    forall j | j in r.registry && j in r.keys ensures BlockedFlowInv(r, j) {
      TakeLeavesBlocked(s, w, j);
    }
  }

  lemma TakeLeavesBlocked(s: Runtime, w: Thread, j: BQ.Key)
    requires RegistryInv(s) && WakingIsSuspended(s, w) && CanTake(s, w) && s.workers[w].key in s.registry
    requires j != s.workers[w].key && j in s.keys && BlockedFlowInv(s, j)
    ensures BlockedFlowInv(TookBlocked(s, w), j)
  {
  }

  lemma OccupiedTakeOne(s: Runtime, w: Thread)
    requires PlacesInv(s) && OccupiedInv(s) && RegistryInv(s) && WakingIsSuspended(s, w) && WakesInv(s)
    requires CanTake(s, w) && s.workers[w].key in s.registry
    ensures OccupiedInv(TookBlocked(s, w)) && WakesInv(TookBlocked(s, w))
  {
  }

  lemma PlacesPostResume(s: Runtime, w: Thread)
    requires PlacesInv(s) && TracesInv(s)
    requires CanPostResume(s, w) && !s.workClosed
    ensures PlacesInv(PostedResume(s, w))
  {
  }

  lemma WaitingPostResume(s: Runtime, w: Thread)
    requires PlacesInv(s) && WaitingInv(s)
    requires CanPostResume(s, w) && !s.workClosed
    ensures WaitingInv(PostedResume(s, w))
  {
  }

  lemma OccupiedPostResume(s: Runtime, w: Thread)
    requires PlacesInv(s) && OccupiedInv(s) && TracesInv(s) && WakesInv(s)
    requires CanPostResume(s, w) && !s.workClosed
    ensures OccupiedInv(PostedResume(s, w)) && WakesInv(PostedResume(s, w))
  {
  }

  lemma PlacesResumeRefused(s: Runtime, w: Thread)
    requires PlacesInv(s)
    requires CanPostResume(s, w) && s.workClosed
    ensures PlacesInv(PostedResume(s, w))
  {
  }

  lemma WaitingResumeRefused(s: Runtime, w: Thread)
    requires PlacesInv(s) && WaitingInv(s)
    requires CanPostResume(s, w) && s.workClosed
    ensures WaitingInv(PostedResume(s, w))
  {
  }

  lemma OccupiedResumeRefused(s: Runtime, w: Thread)
    requires PlacesInv(s) && OccupiedInv(s) && WakesInv(s)
    requires CanPostResume(s, w) && s.workClosed
    ensures OccupiedInv(PostedResume(s, w)) && WakesInv(PostedResume(s, w))
  {
  }

  lemma FlowsDbPop(s: Runtime, d: Thread)
    requires PlacesInv(s) && WaitingInv(s) && OccupiedInv(s) && WakesInv(s)
    requires CanDbPop(s, d)
    ensures PlacesInv(DbPopped(s, d)) && WaitingInv(DbPopped(s, d))
    ensures OccupiedInv(DbPopped(s, d)) && WakesInv(DbPopped(s, d))
  {
  }

  lemma FlowsDbAnswer(s: Runtime, d: Thread)
    requires PlacesInv(s) && WaitingInv(s) && OccupiedInv(s) && WakesInv(s)
    requires CanDbAnswer(s, d)
    ensures PlacesInv(DbAnswered(s, d)) && WaitingInv(DbAnswered(s, d))
    ensures OccupiedInv(DbAnswered(s, d)) && WakesInv(DbAnswered(s, d))
  {
  }

  lemma PlacesDbPost(s: Runtime, d: Thread)
    requires PlacesInv(s)
    requires CanDbWake(s, d) && !s.workClosed && s.keys[s.dbWorkers[d].key].guard in s.finished
    ensures PlacesInv(DbPosted(s, d))
  {
  }

  lemma WaitingDbPost(s: Runtime, d: Thread)
    requires WaitingInv(s)
    requires CanDbWake(s, d) && !s.workClosed && s.keys[s.dbWorkers[d].key].guard in s.finished
    ensures WaitingInv(DbPosted(s, d))
  {
  }

  lemma OccupiedDbPost(s: Runtime, d: Thread)
    requires OccupiedInv(s) && WakesInv(s)
    requires CanDbWake(s, d) && !s.workClosed && s.keys[s.dbWorkers[d].key].guard in s.finished
    ensures OccupiedInv(DbPosted(s, d)) && WakesInv(DbPosted(s, d))
  {
  }

  lemma FlowsWakeRefused(s: Runtime, d: Thread)
    requires PlacesInv(s) && WaitingInv(s) && OccupiedInv(s) && WakesInv(s)
    requires CanDbWake(s, d) && s.workClosed
    ensures PlacesInv(DbPosted(s, d)) && WaitingInv(DbPosted(s, d))
    ensures OccupiedInv(DbPosted(s, d)) && WakesInv(DbPosted(s, d))
  {
  }

  lemma FlowsTakeAll(s: Runtime)
    requires PlacesInv(s) && WaitingInv(s) && RegistryInv(s) && OccupiedInv(s) && WakesInv(s)
    requires true && Careful(s, TakeAllBlocked)
    ensures PlacesInv(TookAll(s)) && WaitingInv(TookAll(s)) && OccupiedInv(TookAll(s)) && WakesInv(TookAll(s))
  {
  }

  lemma PlacesPostSettled(s: Runtime, k: BQ.Key)
    requires PlacesInv(s) && TracesInv(s) && WaitingInv(s) && RegistryInv(s)
    requires CanPostSettled(s, k) && !s.workClosed
    ensures PlacesInv(PostedSettled(s, k))
  {
  }

  lemma WaitingPostSettled(s: Runtime, k: BQ.Key)
    requires PlacesInv(s) && WaitingInv(s) && RegistryInv(s)
    requires CanPostSettled(s, k) && !s.workClosed
    ensures WaitingInv(PostedSettled(s, k))
  {
  }

  lemma OccupiedPostSettled(s: Runtime, k: BQ.Key)
    requires PlacesInv(s) && OccupiedInv(s) && WaitingInv(s) && RegistryInv(s) && TracesInv(s) && WakesInv(s)
    requires CanPostSettled(s, k) && !s.workClosed
    ensures OccupiedInv(PostedSettled(s, k)) && WakesInv(PostedSettled(s, k))
  {
  }

  lemma PlacesSettledRefused(s: Runtime, k: BQ.Key)
    requires PlacesInv(s) && WaitingInv(s) && RegistryInv(s)
    requires CanPostSettled(s, k) && s.workClosed
    ensures PlacesInv(PostedSettled(s, k))
  {
  }

  lemma WaitingSettledRefused(s: Runtime, k: BQ.Key)
    requires PlacesInv(s) && WaitingInv(s) && RegistryInv(s)
    requires CanPostSettled(s, k) && s.workClosed
    ensures WaitingInv(PostedSettled(s, k))
  {
  }

  lemma OccupiedSettledRefused(s: Runtime, k: BQ.Key)
    requires PlacesInv(s) && OccupiedInv(s) && WaitingInv(s) && RegistryInv(s) && WakesInv(s)
    requires CanPostSettled(s, k) && s.workClosed
    ensures OccupiedInv(PostedSettled(s, k)) && WakesInv(PostedSettled(s, k))
  {
  }

  // ---------------------------------------------------------------- steps that only count or close

  predicate IsQuiet(e: Event) {
    e.CountWork? || e.UncountWork? || e.CountDb? || e.UncountDb? || e.CloseWork? || e.CloseDb?
  }

  lemma QuietStep(s: Runtime, e: Event)
    requires Enabled(s, e) && IsQuiet(e)
    ensures var r := Step(s, e);
      && r == s.(workTally := r.workTally, dbTally := r.dbTally, workClosed := r.workClosed, dbClosed := r.dbClosed)
      && (s.workClosed ==> r.workClosed)
  {
  }

  lemma QuietKeepsKeys(s: Runtime, workTally: Tally, dbTally: Tally, workClosed: bool, dbClosed: bool)
    requires TracesInv(s) && PhasesInv(s) && RegistryInv(s) && OwnersInv(s)
    ensures var r := s.(workTally := workTally, dbTally := dbTally, workClosed := workClosed, dbClosed := dbClosed);
      TracesInv(r) && PhasesInv(r) && RegistryInv(r) && OwnersInv(r)
  {
  }

  lemma QuietKeepsFlows(s: Runtime, workTally: Tally, dbTally: Tally, workClosed: bool, dbClosed: bool)
    requires FlowsInv(s) && (s.workClosed ==> workClosed)
    ensures FlowsInv(s.(workTally := workTally, dbTally := dbTally, workClosed := workClosed, dbClosed := dbClosed))
  {
  }

  // ---------------------------------------------------------------- the two counters

  lemma SizeWithout<T>(a: set<T>, x: T)
    ensures |a - {x}| == |a| - if x in a then 1 else 0
  {
    if x in a {
      assert a == (a - {x}) + {x};
    } else {
      assert a - {x} == a;
    }
  }

  lemma AtWorkUpdate(workers: map<Thread, Worker>, w: Thread, x: Worker)
    requires w in workers
    ensures AtWork(workers[w := x]) - {w} == AtWork(workers) - {w}
    ensures w in AtWork(workers) <==> !workers[w].Idle?
    ensures w in AtWork(workers[w := x]) <==> !x.Idle?
  {
  }

  lemma WorkerCount(workers: map<Thread, Worker>, w: Thread, x: Worker)
    requires w in workers
    ensures |AtWork(workers[w := x])|
         == |AtWork(workers)| - (if workers[w].Idle? then 0 else 1) + (if x.Idle? then 0 else 1)
  {
    AtWorkUpdate(workers, w, x);
    SizeWithout(AtWork(workers), w);
    SizeWithout(AtWork(workers[w := x]), w);
  }

  lemma AtQueriesUpdate(dbWorkers: map<Thread, DbWorker>, d: Thread, x: DbWorker)
    requires d in dbWorkers
    ensures AtQueries(dbWorkers[d := x]) - {d} == AtQueries(dbWorkers) - {d}
    ensures d in AtQueries(dbWorkers) <==> !dbWorkers[d].DbIdle?
    ensures d in AtQueries(dbWorkers[d := x]) <==> !x.DbIdle?
  {
  }

  lemma DbWorkerCount(dbWorkers: map<Thread, DbWorker>, d: Thread, x: DbWorker)
    requires d in dbWorkers
    ensures |AtQueries(dbWorkers[d := x])|
         == |AtQueries(dbWorkers)| - (if dbWorkers[d].DbIdle? then 0 else 1) + (if x.DbIdle? then 0 else 1)
  {
    AtQueriesUpdate(dbWorkers, d, x);
    SizeWithout(AtQueries(dbWorkers), d);
    SizeWithout(AtQueries(dbWorkers[d := x]), d);
  }

  lemma TalliesPop(s: Runtime, w: Thread)
    requires TracesInv(s) && TalliesInv(s) && CanPop(s, w)
    ensures TalliesInv(Popped(s, w))
  {
    WorkerCount(s.workers, w, Popped(s, w).workers[w]);
    assert Popped(s, w).workers == s.workers[w := Popped(s, w).workers[w]];
  }

  lemma TalliesTask(s: Runtime, e: Event)
    requires TracesInv(s) && TalliesInv(s) && Enabled(s, e)
    requires e.Suspend? || e.FnEnds? || e.FnSuspended? || e.TakeBlocked?
    ensures TalliesInv(Step(s, e))
  {
    match e
    case Suspend(w, k) => WorkerCount(s.workers, w, DidSuspend(s, w, k).workers[w]);
    case FnEnds(w) => WorkerCount(s.workers, w, Ended(s, w).workers[w]);
    case FnSuspended(w) => WorkerCount(s.workers, w, Done);
    case TakeBlocked(w) => WorkerCount(s.workers, w, TookBlocked(s, w).workers[w]);
  }

  lemma TalliesEnd(s: Runtime, e: Event)
    requires TalliesInv(s) && Enabled(s, e)
    requires e.SettleCredit? || e.GiveSlot? || e.Check? || e.EventEnds? || e.FinishTask?
    ensures TalliesInv(Step(s, e))
  {
    WorkerCount(s.workers, e.w, Step(s, e).workers[e.w]);
    assert Step(s, e).workers == s.workers[e.w := Step(s, e).workers[e.w]];
  }

  lemma TalliesPush(s: Runtime, e: Event)
    requires TracesInv(s) && TalliesInv(s) && Enabled(s, e)
    requires e.Submit? || e.PostResume? || e.SubmitQuery? || e.PostSettled?
    ensures TalliesInv(Step(s, e))
  {
    if e.PostResume? || e.SubmitQuery? {
      WorkerCount(s.workers, e.w, Step(s, e).workers[e.w]);
      assert Step(s, e).workers == s.workers[e.w := Step(s, e).workers[e.w]];
    }
  }

  lemma TalliesDb(s: Runtime, e: Event)
    requires TracesInv(s) && TalliesInv(s) && Enabled(s, e)
    requires e.DbPop? || e.DbAnswer? || e.DbPost? || e.DbPostStopped? || e.DbFinish?
    ensures TalliesInv(Step(s, e))
  {
    DbWorkerCount(s.dbWorkers, e.d, Step(s, e).dbWorkers[e.d]);
    assert Step(s, e).dbWorkers == s.dbWorkers[e.d := Step(s, e).dbWorkers[e.d]];
  }

  lemma TalliesQuiet(s: Runtime, e: Event)
    requires TalliesInv(s) && Enabled(s, e) && (IsQuiet(e) || e.TakeAllBlocked?)
    ensures TalliesInv(Step(s, e))
  {
    match e
    case CountWork =>
    case UncountWork =>
    case CountDb =>
    case UncountDb =>
    case CloseWork =>
    case CloseDb =>
    case TakeAllBlocked =>
  }

  lemma TalliesStep(s: Runtime, e: Event)
    requires TracesInv(s) && TalliesInv(s) && Enabled(s, e)
    ensures TalliesInv(Step(s, e))
  {
    if e.PopTask? {
      TalliesPop(s, e.w);
    } else if e.Suspend? || e.FnEnds? || e.FnSuspended? || e.TakeBlocked? {
      TalliesTask(s, e);
    } else if e.SettleCredit? || e.GiveSlot? || e.Check? || e.EventEnds? || e.FinishTask? {
      TalliesEnd(s, e);
    } else if e.Submit? || e.PostResume? || e.SubmitQuery? || e.PostSettled? {
      TalliesPush(s, e);
    } else if e.DbPop? || e.DbAnswer? || e.DbPost? || e.DbPostStopped? || e.DbFinish? {
      TalliesDb(s, e);
    } else {
      TalliesQuiet(s, e);
    }
  }

  // ---------------------------------------------------------------- all steps

  ghost predicate CoreInv(s: Runtime) {
    TracesInv(s) && PhasesInv(s) && RegistryInv(s) && OwnersInv(s)
  }

  lemma CoreWorkStep(s: Runtime, e: Event)
    requires CoreInv(s) && Enabled(s, e)
    requires e.PopTask? || e.TakeBlocked? || e.PostResume? || e.Submit? || e.PostSettled? || e.TakeAllBlocked?
    ensures CoreInv(Step(s, e))
  {
    match e
    case Submit(m) => KeysSubmit(s, m);
    case PopTask(w) =>
      if s.work[s.workHead].RunFlow? {
        KeysPopFlow(s, w);
        OwnersPopFlow(s, w);
      } else {
        TracesPopWake(s, w);
        RegistryPopWake(s, w);
        OwnersPopWake(s, w);
      }
    case TakeBlocked(w) =>
      if s.workers[w].key in s.registry {
        TracesTakeOne(s, w);
        RegistryTakeOne(s, w);
        OwnersTakeOne(s, w);
      } else {
        TracesTakeNone(s, w);
        RegistryTakeNone(s, w);
        OwnersTakeNone(s, w);
      }
    case PostResume(w) =>
      if s.workClosed {
        KeysResumeRefused(s, w);
      } else {
        TracesPostResume(s, w);
        RegistryPostResume(s, w);
      }
    case PostSettled(k) =>
      if s.workClosed {
        KeysSettledRefused(s, k);
      } else {
        TracesPostSettled(s, k);
        RegistryPostSettled(s, k);
      }
    case TakeAllBlocked => KeysTakeAll(s);
  }

  lemma CoreTaskStep(s: Runtime, e: Event)
    requires CoreInv(s) && Enabled(s, e)
    requires e.Suspend? || e.SubmitQuery? || e.FnEnds? || e.FnSuspended? || e.SettleCredit? || e.GiveSlot? || e.Check?
             || e.EventEnds? || e.FinishTask?
    ensures CoreInv(Step(s, e))
  {
    match e
    case Suspend(w, k) =>
      TracesSuspend(s, w, k);
      RegistrySuspend(s, w, k);
      OwnersSuspend(s, w, k);
    case SubmitQuery(w) =>
      if s.dbClosed {
        TracesSubmitRefused(s, w);
        RegistrySubmitRefused(s, w);
      } else {
        TracesSubmitQuery(s, w);
        RegistrySubmitQuery(s, w);
        OwnersSubmitQuery(s, w);
      }
    case FnEnds(w) =>
      TracesEnd(s, w);
      RegistryEnd(s, w);
    case FnSuspended(w) =>
      TracesLeave(s, w);
      RegistryLeave(s, w);
    case SettleCredit(w) => KeysSettleCredit(s, w);
    case GiveSlot(w, need) =>
      TracesGiveSlot(s, w, need);
      RegistryGiveSlot(s, w, need);
    case Check(w) => CoreOffDuty(s, w, Done);
    case EventEnds(w) => CoreOffDuty(s, w, Done);
    case FinishTask(w) => CoreFinishTask(s, w);
  }

  lemma CoreOffDuty(s: Runtime, w: Thread, x: Worker)
    requires CoreInv(s) && w in s.workers && Resting(s.workers[w]) && Resting(x)
    ensures CoreInv(Become(s, w, x))
  {
    TracesOffDuty(s, w, x);
    RegistryOffDuty(s, w, x);
  }

  lemma CoreFinishTask(s: Runtime, w: Thread)
    requires CoreInv(s) && CanFinishTask(s, w)
    ensures CoreInv(DidFinishTask(s, w))
  {
    CoreOffDuty(s, w, Idle);
    QuietKeepsKeys(Become(s, w, Idle), TaskFinished(s.workTally), s.dbTally, s.workClosed, s.dbClosed);
  }

  lemma CoreDbStep(s: Runtime, e: Event)
    requires CoreInv(s) && Enabled(s, e)
    requires e.DbPop? || e.DbAnswer? || e.DbPost? || e.DbPostStopped? || e.DbFinish?
    ensures CoreInv(Step(s, e))
  {
    match e
    case DbPop(d) =>
      TracesDbPop(s, d);
      RegistryDbPop(s, d);
    case DbAnswer(d) => KeysDbAnswer(s, d);
    case DbPost(d) => CoreDbWake(s, d);
    case DbPostStopped(d) => CoreDbWake(s, d);
    case DbFinish(d) => KeysDbFinish(s, d);
  }

  lemma CoreDbWake(s: Runtime, d: Thread)
    requires CoreInv(s) && CanDbWake(s, d)
    ensures CoreInv(DbPosted(s, d))
  {
    if s.workClosed {
      TracesWakeRefused(s, d);
      RegistryWakeRefused(s, d);
    } else {
      TracesDbPost(s, d);
      RegistryDbPost(s, d);
    }
  }

  lemma CoreQuietStep(s: Runtime, e: Event)
    requires CoreInv(s) && Enabled(s, e) && IsQuiet(e)
    ensures CoreInv(Step(s, e))
  {
    var r := Step(s, e);
    QuietStep(s, e);
    QuietKeepsKeys(s, r.workTally, r.dbTally, r.workClosed, r.dbClosed);
  }

  lemma KeysStep(s: Runtime, e: Event)
    requires KeysInv(s) && Enabled(s, e)
    ensures KeysInv(Step(s, e))
  {
    TalliesStep(s, e);
    if e.PopTask? || e.TakeBlocked? || e.PostResume? || e.Submit? || e.PostSettled? || e.TakeAllBlocked? {
      CoreWorkStep(s, e);
    } else if e.DbPop? || e.DbAnswer? || e.DbPost? || e.DbPostStopped? || e.DbFinish? {
      CoreDbStep(s, e);
    } else if IsQuiet(e) {
      CoreQuietStep(s, e);
    } else {
      CoreTaskStep(s, e);
    }
  }

  lemma FlowsWorkStep(s: Runtime, e: Event)
    requires Inv(s) && Enabled(s, e) && (e.PopTask? || e.TakeBlocked? || e.Submit?)
    ensures FlowsInv(Step(s, e))
  {
    match e
    case Submit(m) => FlowsSubmit(s, m);
    case PopTask(w) =>
      if s.work[s.workHead].RunFlow? {
        PlacesPopFlow(s, w);
        WaitingPopFlow(s, w);
        OccupiedPopFlow(s, w);
      } else {
        PlacesPopWake(s, w);
        WaitingPopWake(s, w);
        OccupiedPopWake(s, w);
      }
    case TakeBlocked(w) =>
      if s.workers[w].key in s.registry {
        WakingFlow(s, w);
        PlacesTakeOne(s, w);
        WaitingTakeOne(s, w);
        OccupiedTakeOne(s, w);
      } else {
        PlacesTakeNone(s, w);
        WaitingTakeNone(s, w);
        OccupiedTakeNone(s, w);
      }
  }

  lemma FlowsPostStep(s: Runtime, e: Event)
    requires Inv(s) && Enabled(s, e) && Careful(s, e) && (e.PostResume? || e.PostSettled? || e.TakeAllBlocked?)
    ensures FlowsInv(Step(s, e))
  {
    match e
    case PostResume(w) =>
      if s.workClosed {
        PlacesResumeRefused(s, w);
        WaitingResumeRefused(s, w);
        OccupiedResumeRefused(s, w);
      } else {
        PlacesPostResume(s, w);
        WaitingPostResume(s, w);
        OccupiedPostResume(s, w);
      }
    case PostSettled(k) =>
      if s.workClosed {
        PlacesSettledRefused(s, k);
        WaitingSettledRefused(s, k);
        OccupiedSettledRefused(s, k);
      } else {
        PlacesPostSettled(s, k);
        WaitingPostSettled(s, k);
        OccupiedPostSettled(s, k);
      }
    case TakeAllBlocked => FlowsTakeAll(s);
  }

  lemma FlowsTaskStep(s: Runtime, e: Event)
    requires Inv(s) && Enabled(s, e)
    requires e.Suspend? || e.SubmitQuery? || e.FnEnds? || e.FnSuspended?
    ensures FlowsInv(Step(s, e))
  {
    match e
    case Suspend(w, k) =>
      PlacesSuspend(s, w, k);
      WaitingSuspend(s, w, k);
      OccupiedSuspend(s, w, k);
    case SubmitQuery(w) =>
      if s.dbClosed {
        PlacesSubmitRefused(s, w);
        WaitingSubmitRefused(s, w);
        OccupiedSubmitRefused(s, w);
      } else {
        PlacesSubmitQuery(s, w);
        WaitingSubmitQuery(s, w);
        OccupiedSubmitQuery(s, w);
      }
    case FnEnds(w) => FlowsEnd(s, w);
    case FnSuspended(w) =>
      PlacesLeave(s, w);
      WaitingLeave(s, w);
      OccupiedLeave(s, w);
  }

  lemma FlowsEndStep(s: Runtime, e: Event)
    requires Inv(s) && Enabled(s, e)
    requires e.SettleCredit? || e.GiveSlot? || e.Check? || e.EventEnds? || e.FinishTask?
    ensures FlowsInv(Step(s, e))
  {
    match e
    case SettleCredit(w) => FlowsSettleCredit(s, w);
    case GiveSlot(w, need) =>
      PlacesGiveSlot(s, w, need);
      WaitingGiveSlot(s, w, need);
      OccupiedGiveSlot(s, w, need);
    case Check(w) => FlowsOffDuty(s, w, Done);
    case EventEnds(w) => FlowsOffDuty(s, w, Done);
    case FinishTask(w) => FlowsFinishTask(s, w);
  }

  lemma FlowsFinishTask(s: Runtime, w: Thread)
    requires FlowsInv(s) && CanFinishTask(s, w)
    ensures FlowsInv(DidFinishTask(s, w))
  {
    FlowsOffDuty(s, w, Idle);
    QuietKeepsFlows(Become(s, w, Idle), TaskFinished(s.workTally), s.dbTally, s.workClosed, s.dbClosed);
  }

  lemma FlowsDbStep(s: Runtime, e: Event)
    requires Inv(s) && Enabled(s, e) && Careful(s, e)
    requires e.DbPop? || e.DbAnswer? || e.DbPost? || e.DbPostStopped? || e.DbFinish?
    ensures FlowsInv(Step(s, e))
  {
    match e
    case DbPop(d) => FlowsDbPop(s, d);
    case DbAnswer(d) => FlowsDbAnswer(s, d);
    case DbPost(d) => FlowsDbWake(s, d);
    case DbPostStopped(d) => FlowsDbWake(s, d);
    case DbFinish(d) => FlowsDbFinish(s, d);
  }

  lemma FlowsDbWake(s: Runtime, d: Thread)
    requires Inv(s) && CanDbWake(s, d) && (s.workClosed || s.keys[s.dbWorkers[d].key].guard in s.finished)
    ensures FlowsInv(DbPosted(s, d))
  {
    if s.workClosed {
      FlowsWakeRefused(s, d);
    } else {
      PlacesDbPost(s, d);
      WaitingDbPost(s, d);
      OccupiedDbPost(s, d);
    }
  }

  lemma FlowsQuietStep(s: Runtime, e: Event)
    requires FlowsInv(s) && Enabled(s, e) && IsQuiet(e)
    ensures FlowsInv(Step(s, e))
  {
    var r := Step(s, e);
    QuietStep(s, e);
    QuietKeepsFlows(s, r.workTally, r.dbTally, r.workClosed, r.dbClosed);
  }

  lemma FlowsStep(s: Runtime, e: Event)
    requires Inv(s) && Enabled(s, e) && Careful(s, e)
    ensures FlowsInv(Step(s, e))
  {
    if e.PopTask? || e.TakeBlocked? || e.Submit? {
      FlowsWorkStep(s, e);
    } else if e.PostResume? || e.PostSettled? || e.TakeAllBlocked? {
      FlowsPostStep(s, e);
    } else if e.Suspend? || e.SubmitQuery? || e.FnEnds? || e.FnSuspended? {
      FlowsTaskStep(s, e);
    } else if e.SettleCredit? || e.GiveSlot? || e.Check? || e.EventEnds? || e.FinishTask? {
      FlowsEndStep(s, e);
    } else if IsQuiet(e) {
      FlowsQuietStep(s, e);
    } else {
      FlowsDbStep(s, e);
    }
  }

  // ---------------------------------------------------------------- whole runs

  lemma StartKeys(workers: nat, dbWorkers: nat)
    ensures KeysInv(NewRuntime(workers, dbWorkers))
  {
    NobodyIsAtWork(workers, dbWorkers);
  }

  lemma NobodyIsAtWork(workers: nat, dbWorkers: nat)
    ensures AtWork(IdleWorkers(workers)) == {} && AtQueries(IdleDbWorkers(dbWorkers)) == {}
  {
  }

  lemma StartFlows(workers: nat, dbWorkers: nat)
    ensures FlowsInv(NewRuntime(workers, dbWorkers))
  {
  }

  lemma StartKeeps(workers: nat, dbWorkers: nat)
    ensures Inv(NewRuntime(workers, dbWorkers))
  {
    StartKeys(workers, dbWorkers);
    StartFlows(workers, dbWorkers);
  }

  lemma {:induction false} EveryRunKeepsKeys(s: Runtime, events: seq<Event>)
    requires KeysInv(s) && Possible(s, events)
    ensures KeysInv(Run(s, events))
    decreases |events|
  {
    if events != [] {
      KeysStep(s, events[0]);
      EveryRunKeepsKeys(Step(s, events[0]), events[1..]);
    }
  }

  lemma {:induction false} EveryRunKeeps(s: Runtime, events: seq<Event>)
    requires Inv(s) && Possible(s, events) && CarefulRun(s, events)
    ensures Inv(Run(s, events))
    decreases |events|
  {
    if events != [] {
      KeysStep(s, events[0]);
      FlowsStep(s, events[0]);
      EveryRunKeeps(Step(s, events[0]), events[1..]);
    }
  }
}
