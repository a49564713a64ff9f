/** Which thread of the pipeline can go on when, by what the source would look at: texts, credits, room and flags. */
module PipelineChoices {
  import opened RouteClassifier
  import opened ReaderControl
  import opened Pipeline
  import opened PipelineSteps
  import RT = CoroutineRuntime

  /** On a reactor's way through `on_message`: a message whose text no DB prefix begins goes past the gate, any other
      takes a credit if the open gate has one and else has to wait; then the waiting queue, or the parse pool,
      answers. */
  ghost predicate ReactorMay(s: State, c: ConnId)
    requires c in s.conns
  {
    var x, queued := s.conns[c], |s.divide| - s.divideHead;
    && (forall m :: Enabled(s, TakeSlot(c, m)) <==>
          && x.at.Have? && m !in s.msgs
          && !x.flow.resumePending && !x.flow.full && x.flow.inFlight < x.flow.window)
    && (x.at.Hand? ==>
          var db := IsDb(s.dbPrefixes, x.at.text);
          && (Enabled(s, AdmitFast(c)) <==> !db)
          && (Enabled(s, AdmitDb(c)) <==> db && !s.gate.closed && s.gate.available > 0)
          && (Enabled(s, Starve(c)) <==> db && (s.gate.closed || s.gate.available == 0)))
    && (Enabled(s, AdmitFast(c)) || Enabled(s, AdmitDb(c)) || Enabled(s, Starve(c)) ==> x.at.Hand?)
    && (Enabled(s, AddWaiting(c)) <==> x.at.Starved? && !s.waitStopped)
    && (Enabled(s, RefuseWaiting(c)) <==> x.at.Starved? && s.waitStopped)
    && (Enabled(s, DispatchClosed(c)) <==> x.at.Admitted? && s.divideClosed)
    && (Enabled(s, DispatchFull(c)) <==> x.at.Admitted? && !s.divideClosed && queued >= s.divideHigh)
    && (Enabled(s, DispatchOk(c)) <==>
          x.at.Admitted? && !s.divideClosed && queued < s.divideHigh && s.divideTally.adding > 0)
    && (Enabled(s, GiveBack(c)) <==> x.at.Refused?)
    && (forall step :: Enabled(s, Reactor(c, step)) <==> Can(x, step))
  }

  /** The drain thread takes the oldest message, waits for a credit and for room, and schedules the resume. */
  ghost predicate DrainMay(s: State) {
    var queued := |s.divide| - s.divideHead;
    && (Enabled(s, DrainPop) <==> s.drain.DrainIdle? && !s.waitStopped && s.waitHead < |s.waiting|)
    && (Enabled(s, DrainStop) <==> s.drain.DrainIdle? && s.waitStopped)
    && (Enabled(s, DrainAcquire) <==> s.drain.DrainHas? && !s.gate.closed && s.gate.available > 0)
    && (Enabled(s, DrainGateClosed) <==> s.drain.DrainHas? && s.gate.closed)
    && (Enabled(s, DrainPostClosed) <==> s.drain.DrainMayPost? && s.divideClosed)
    && (Enabled(s, DrainPost) <==>
          s.drain.DrainMayPost? && !s.divideClosed && queued < s.divideHigh && s.divideTally.adding > 0)
    && (Enabled(s, DrainSchedule) <==> s.drain.DrainMustSchedule?)
  }

  /** A parse ends in the work pool or in a failure. */
  ghost predicate ParseMay(s: State) {
    && (Enabled(s, ParsePop) <==> s.divideHead < |s.divide|)
    && (forall m :: Enabled(s, ParseOk(m)) <==>
          m in s.msgs && s.msgs[m].stage.Parsing? && !s.rt.workClosed && s.rt.workTally.adding > 0)
    && (forall m :: Enabled(s, ParseDropped(m)) <==> m in s.msgs && s.msgs[m].stage.Parsing? && s.rt.workClosed)
    && (forall m :: Enabled(s, ParseThrow(m)) <==> m in s.msgs && s.msgs[m].stage.Parsing?)
    && (Enabled(s, FinishParse) <==> s.parseDone > 0)
  }

  /** A worker at the end of a task, and the runtime's own steps; and whoever opens, counts and closes. */
  ghost predicate WorkMay(s: State) {
    && (forall w :: w in s.rt.workers ==>
          && (Enabled(s, ReturnCredit(w)) <==> s.rt.workers[w].Ending?)
          && (Enabled(s, FinishOne(w)) <==> s.rt.workers[w].GivingSlot?)
          && (Enabled(s, CheckPaused(w)) <==> s.rt.workers[w].Checking?))
    && (forall x :: Enabled(s, Work(x)) <==>
          && RT.Enabled(s.rt, x) && RT.Careful(s.rt, x)
          && !x.Submit? && !x.SettleCredit? && !x.GiveSlot? && !x.Check?)
    && (forall c :: Enabled(s, Open(c)) <==> c !in s.conns)
    && Enabled(s, CountDivide) && (Enabled(s, UncountDivide) <==> s.divideTally.adding > 0)
    && Enabled(s, CloseDivide) && Enabled(s, CloseGate) && Enabled(s, StopWaiting)
  }

  lemma AtTheGate(s: State, c: ConnId)
    ensures Enabled(s, AdmitFast(c)) <==> CanAdmitFast(s, c)
    ensures Enabled(s, AdmitDb(c)) <==> CanAdmitDb(s, c)
    ensures Enabled(s, Starve(c)) <==> CanStarve(s, c)
    ensures forall m :: Enabled(s, TakeSlot(c, m)) <==> CanTakeSlot(s, c, m)
  {
  }

  lemma AtTheQueues(s: State, c: ConnId)
    ensures Enabled(s, AddWaiting(c)) <==> CanAddWaiting(s, c)
    ensures Enabled(s, RefuseWaiting(c)) <==> CanRefuseWaiting(s, c)
    ensures Enabled(s, DispatchOk(c)) <==> CanDispatch(s, c) && DivideOpen(s) && !DivideFull(s)
    ensures Enabled(s, DispatchFull(c)) <==> CanDispatch(s, c) && !s.divideClosed && DivideFull(s)
    ensures Enabled(s, DispatchClosed(c)) <==> CanDispatch(s, c) && s.divideClosed
  {
  }

  lemma AtTheReactor(s: State, c: ConnId)
    requires c in s.conns
    ensures Enabled(s, GiveBack(c)) <==> CanGiveBack(s, c)
    ensures forall step :: Enabled(s, Reactor(c, step)) <==> Can(s.conns[c], step)
  {
  }

  lemma GateChoices(s: State, c: ConnId)
    requires HandInv(s.conns, s.msgs) && Labelled(s) && HandTexts(s) && c in s.conns && s.conns[c].at.Hand?
    requires 0 <= s.gate.available
    ensures var db := IsDb(s.dbPrefixes, s.conns[c].at.text);
      && (CanAdmitFast(s, c) <==> !db)
      && (CanAdmitDb(s, c) <==> db && !s.gate.closed && s.gate.available > 0)
      && (CanStarve(s, c) <==> db && (s.gate.closed || s.gate.available == 0))
  {
    assert AtInv(s.conns[c].at, c, s.msgs);
    var m := s.conns[c].at.m;
    assert s.msgs[m].db <==> IsDb(s.dbPrefixes, s.msgs[m].text);
  }

  lemma HandIsKnown(s: State, c: ConnId)
    requires HandInv(s.conns, s.msgs) && c in s.conns
    ensures InHands(s.conns[c].at) <==> HasInHand(s, c)
  {
    assert AtInv(s.conns[c].at, c, s.msgs);
  }

  lemma FreshTakes(s: State, c: ConnId)
    requires QueueInv(s) && c in s.conns
    ensures var x := s.conns[c];
      forall m :: CanTakeSlot(s, c, m) <==>
        && x.at.Have? && m !in s.msgs && !x.flow.resumePending && !x.flow.full && x.flow.inFlight < x.flow.window
  {
  }

  lemma ReactorChooses(s: State, c: ConnId)
    requires HandInv(s.conns, s.msgs) && QueueInv(s) && Labelled(s) && HandTexts(s) && c in s.conns
    requires 0 <= s.gate.available
    ensures ReactorMay(s, c)
  {
    HandIsKnown(s, c);
    FreshTakes(s, c);
    if s.conns[c].at.Hand? {
      GateChoices(s, c);
    }
    AtTheGate(s, c);
    AtTheQueues(s, c);
    AtTheReactor(s, c);
  }

  lemma AtTheDrain(s: State)
    ensures Enabled(s, DrainPop) <==> CanDrainPop(s)
    ensures Enabled(s, DrainStop) <==> s.drain.DrainIdle? && s.waitStopped
    ensures Enabled(s, DrainAcquire) <==> CanDrainAcquire(s)
    ensures Enabled(s, DrainGateClosed) <==> CanDrainGateClosed(s)
  {
  }

  lemma AtTheDispatch(s: State)
    ensures Enabled(s, DrainPostClosed) <==> CanDrainPost(s) && s.divideClosed
    ensures Enabled(s, DrainPost) <==> CanDrainPost(s) && DivideOpen(s) && !DivideFull(s)
    ensures Enabled(s, DrainSchedule) <==> CanDrainSchedule(s)
  {
  }

  lemma DrainIsKnown(s: State)
    requires QueueInv(s) && SlotInv(s.conns, s.msgs)
    ensures DrainHolds(s) <==> s.drain.DrainHas? || s.drain.DrainMayPost? || s.drain.DrainMustSchedule?
    ensures s.drain.DrainHas? ==> s.waitHead > 0
    ensures s.waitHead < |s.waiting| ==> s.waiting[s.waitHead] in s.msgs
    ensures s.divideHead < |s.divide| ==> s.divide[s.divideHead] in s.msgs
  {
  }

  lemma DrainChooses(s: State)
    requires QueueInv(s) && SlotInv(s.conns, s.msgs) && 0 <= s.gate.available
    ensures DrainMay(s)
  {
    DrainIsKnown(s);
    AtTheDrain(s);
    AtTheDispatch(s);
  }

  lemma AtTheParse(s: State)
    ensures Enabled(s, ParsePop) <==> CanParsePop(s)
    ensures forall m :: Enabled(s, ParseOk(m)) <==> CanParseOk(s, m)
    ensures forall m :: Enabled(s, ParseDropped(m)) <==> IsParsing(s, m) && s.rt.workClosed
    ensures forall m :: Enabled(s, ParseThrow(m)) <==> IsParsing(s, m)
    ensures Enabled(s, FinishParse) <==> s.parseDone > 0
  {
  }

  lemma ParseChooses(s: State)
    requires s.divideHead < |s.divide| ==> s.divide[s.divideHead] in s.msgs
    ensures ParseMay(s)
  {
    AtTheParse(s);
  }

  lemma AtTheEnd(s: State, w: Thread)
    ensures Enabled(s, ReturnCredit(w)) <==> CanReturnCredit(s, w)
    ensures Enabled(s, FinishOne(w)) <==> CanFinishOne(s, w)
    ensures Enabled(s, CheckPaused(w)) <==> CanCheck(s, w)
  {
  }

  lemma AtTheDoor(s: State)
    ensures forall c :: Enabled(s, Open(c)) <==> c !in s.conns
  {
  }

  lemma AtTheRuntime(s: State)
    ensures forall x :: Enabled(s, Work(x)) <==> RT.Enabled(s.rt, x) && Internal(x) && RT.Careful(s.rt, x)
  {
  }

  lemma AnybodyCounts(s: State)
    ensures Enabled(s, CountDivide) && (Enabled(s, UncountDivide) <==> s.divideTally.adding > 0)
  {
  }

  lemma AnybodyCloses(s: State)
    ensures Enabled(s, CloseDivide) && Enabled(s, CloseGate) && Enabled(s, StopWaiting)
  {
    assert !AtReactor(CloseDivide) && !AtWork(CloseDivide);
    assert !AtReactor(CloseGate) && !AtWork(CloseGate);
    assert !AtReactor(StopWaiting) && !AtWork(StopWaiting);
  }

  lemma WorkChooses(s: State)
    requires forall w :: w in s.rt.workers
               && (s.rt.workers[w].Ending? || s.rt.workers[w].GivingSlot? || s.rt.workers[w].Checking?)
               ==> WorksFor(s, w)
    ensures WorkMay(s)
  {
    AtTheDoor(s);
    AtTheRuntime(s);
    AnybodyCounts(s);
    AnybodyCloses(s);
    forall w | w in s.rt.workers
      ensures Enabled(s, ReturnCredit(w)) <==> s.rt.workers[w].Ending?
      ensures Enabled(s, FinishOne(w)) <==> s.rt.workers[w].GivingSlot?
      ensures Enabled(s, CheckPaused(w)) <==> s.rt.workers[w].Checking?
    {
      AtTheEnd(s, w);
    }
  }
}
