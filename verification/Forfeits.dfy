/** DB credits that never come back, and DB messages that will therefore, or for other reasons, never be posted. */
module Forfeits {
  import opened CreditGate
  import opened ReaderControl
  import opened Pipeline
  import opened PipelineProofs
  import opened PipelineTheorems
  import opened MessageSteps
  import RT = CoroutineRuntime
  import CP = CoroutineProofs

  // ---------------------------------------------------------------- credits

  /** With the work pool closed, a flow at such a place is not run any more. */
  predicate Stays(p: RT.Place) {
    p.Suspended? || p.InHands? || p.Dropped?
  }

  /** The credit of m is not coming back: its parse failed; or the work pool is closed, and will refuse it. */
  predicate Forfeits(s: State, m: MsgId) {
    && m in s.msgs && s.msgs[m].db
    && (s.msgs[m].stage.ParseFailed?
        || (s.rt.workClosed
            && (s.msgs[m].stage.InDivide? || s.msgs[m].stage.Parsing?
                || (s.msgs[m].stage.InWork? && m in s.rt.place && Stays(s.rt.place[m])))))
  }

  function Forfeited(s: State): set<MsgId> {
    set m | m in s.msgs && Forfeits(s, m)
  }

  lemma ForfeitsHoldCredits(s: State)
    requires CreditInv(s.msgs, s.credit, s.gate)
    ensures Forfeited(s) <= s.credit
    ensures CanAcquire(s.gate) ==> |Forfeited(s)| < s.gate.limit
  {
    NoRoomForMore(Forfeited(s), s.credit);
  }

  /** With the work pool closed, what is in the parse pool stays in it or fails. */
  lemma ParseEndsInFailure(s: State, e: Event, m: MsgId)
    requires QueueInv(s) && OfParse(e) && QueueEnabled(s, e) && s.rt.workClosed
    requires m in s.msgs && AtParse(s.msgs[m].stage)
    ensures var r := QueueEffect(s, e);
      && m in r.msgs && r.msgs[m].db == s.msgs[m].db && (AtParse(r.msgs[m].stage) || r.msgs[m].stage.ParseFailed?)
  {
  }

  lemma ParseLeavesRuntime(s: State, e: Event)
    requires OfParse(e) && QueueEnabled(s, e) && s.rt.workClosed
    ensures QueueEffect(s, e).rt == s.rt
  {
  }

  // Where a flow stays.

  ghost predicate StaysAt(rt: RT.Runtime, r: RT.Runtime, m: MsgId) {
    r.workClosed && m in r.place && Stays(r.place[m])
  }

  lemma StaysInternally(rt: RT.Runtime, x: RT.Event, m: MsgId)
    requires RT.PlacesInv(rt) && RT.Enabled(rt, x) && Internal(x)
    requires rt.workClosed && m in rt.place && Stays(rt.place[m])
    ensures StaysAt(rt, RT.Step(rt, x), m)
  {
    if x.PopTask? {
      StaysAtPop(rt, x.w, m);
    } else if x.Suspend? || x.SubmitQuery? || x.FnEnds? || x.FnSuspended? {
      StaysAtCoroutine(rt, x, m);
    } else if x.TakeBlocked? || x.PostResume? || x.PostSettled? {
      StaysWithTasks(rt, x, m);
    } else {
      StaysElsewhere(rt, x, m);
    }
  }

  lemma StaysAtPop(rt: RT.Runtime, w: Thread, m: MsgId)
    requires RT.PlacesInv(rt) && RT.CanPop(rt, w) && rt.workClosed && m in rt.place && Stays(rt.place[m])
    ensures StaysAt(rt, RT.Popped(rt, w), m)
  {
  }

  lemma StaysAtCoroutine(rt: RT.Runtime, x: RT.Event, m: MsgId)
    requires RT.Enabled(rt, x) && (x.Suspend? || x.SubmitQuery? || x.FnEnds? || x.FnSuspended?)
    requires rt.workClosed && m in rt.place && Stays(rt.place[m])
    ensures StaysAt(rt, RT.Step(rt, x), m)
  {
  }

  lemma StaysWithTasks(rt: RT.Runtime, x: RT.Event, m: MsgId)
    requires RT.Enabled(rt, x) && (x.TakeBlocked? || x.PostResume? || x.PostSettled?)
    requires rt.workClosed && m in rt.place && Stays(rt.place[m])
    ensures StaysAt(rt, RT.Step(rt, x), m)
  {
  }

  lemma StaysElsewhere(rt: RT.Runtime, x: RT.Event, m: MsgId)
    requires RT.Enabled(rt, x) && Internal(x)
    requires !x.PopTask? && !x.Suspend? && !x.SubmitQuery? && !x.FnEnds? && !x.FnSuspended?
             && !x.TakeBlocked? && !x.PostResume? && !x.PostSettled?
    requires rt.workClosed && m in rt.place && Stays(rt.place[m])
    ensures StaysAt(rt, RT.Step(rt, x), m)
  {
  }

  lemma StaysAtWork(s: State, e: Event, m: MsgId)
    requires RT.PlacesInv(s.rt) && AtWork(e) && WorkEnabled(s, e)
    requires s.rt.workClosed && m in s.rt.place && Stays(s.rt.place[m])
    ensures StaysAt(s.rt, WorkEffect(s, e).rt, m)
  {
    match e
    case Work(x) => StaysInternally(s.rt, x, m);
    case FinishOne(w) => StaysAtFinish(s, w, m);
    case _ =>
  }

  lemma StaysAtFinish(s: State, w: Thread, m: MsgId)
    requires RT.PlacesInv(s.rt) && CanFinishOne(s, w) && s.rt.workClosed && m in s.rt.place && Stays(s.rt.place[m])
    ensures StaysAt(s.rt, DidFinishOne(s, w).rt, m)
  {
    assert RT.Busy(s.rt.workers[w]);
  }

  lemma WorkStaysClosed(s: State, e: Event)
    requires AtWork(e) && WorkEnabled(s, e) && s.rt.workClosed
    ensures WorkEffect(s, e).rt.workClosed
  {
    if e.Work? {
      ClosedInternally(s.rt, e.e);
    }
  }

  predicate Pushes(x: RT.Event) {
    x.Submit? || x.PostResume? || x.DbPost? || x.DbPostStopped? || x.PostSettled?
  }

  lemma ClosedInternally(rt: RT.Runtime, x: RT.Event)
    requires RT.Enabled(rt, x) && rt.workClosed
    ensures RT.Step(rt, x).workClosed
  {
    if Pushes(x) {
      ClosedToPushes(rt, x);
    } else {
      ClosedOtherwise(rt, x);
    }
  }

  lemma ClosedToPushes(rt: RT.Runtime, x: RT.Event)
    requires RT.Enabled(rt, x) && rt.workClosed && Pushes(x)
    ensures RT.Step(rt, x).workClosed
  {
  }

  lemma ClosedOtherwise(rt: RT.Runtime, x: RT.Event)
    requires RT.Enabled(rt, x) && rt.workClosed && !Pushes(x)
    ensures RT.Step(rt, x).workClosed
  {
    if x.PopTask? || x.SubmitQuery? || x.Suspend? || x.TakeBlocked? {
      ClosedAtTasks(rt, x);
    }
  }

  lemma ClosedAtTasks(rt: RT.Runtime, x: RT.Event)
    requires RT.Enabled(rt, x) && rt.workClosed && (x.PopTask? || x.SubmitQuery? || x.Suspend? || x.TakeBlocked?)
    ensures RT.Step(rt, x).workClosed
  {
  }

  /** A forfeited credit is forfeited for good. */
  lemma ForfeitsAfter(s: State, e: Event, m: MsgId)
    requires Staged(s) && Enabled(s, e) && Forfeits(s, m)
    ensures Forfeits(Step(s, e), m)
  {
    if AtReactor(e) {
      ForfeitsAtReactor(s, e, m);
    } else if AtWork(e) {
      ForfeitsAtWork(s, e, m);
    } else {
      ForfeitsInQueues(s, e, m);
    }
  }

  lemma ForfeitsAtReactor(s: State, e: Event, m: MsgId)
    requires HandInv(s.conns, s.msgs) && AtReactor(e) && ReactorEnabled(s, e) && Forfeits(s, m)
    ensures Forfeits(ReactorEffect(s, e), m)
  {
    UnmovedByReactor(s, e, m);
    RuntimeOfReactor(s, e);
  }

  lemma ForfeitsAtWork(s: State, e: Event, m: MsgId)
    requires WorkInv(s.msgs, s.rt.place, s.rt.workers) && RT.PlacesInv(s.rt) && AtWork(e) && WorkEnabled(s, e)
    requires Forfeits(s, m)
    ensures Forfeits(WorkEffect(s, e), m)
  {
    UnmovedByWork(s, e, m);
    if !s.msgs[m].stage.ParseFailed? {
      WorkStaysClosed(s, e);
    }
    if s.msgs[m].stage.InWork? {
      StaysAtWork(s, e, m);
    }
  }

  lemma ForfeitsInQueues(s: State, e: Event, m: MsgId)
    requires QueueInv(s) && !AtReactor(e) && !AtWork(e) && QueueEnabled(s, e) && Forfeits(s, m)
    ensures Forfeits(QueueEffect(s, e), m)
  {
    if !OfParse(e) {
      UnmovedInQueues(s, e, m);
      RuntimeOfPools(s, e);
    } else {
      ForfeitsAtParse(s, e, m);
    }
  }

  lemma ForfeitsAtParse(s: State, e: Event, m: MsgId)
    requires QueueInv(s) && OfParse(e) && QueueEnabled(s, e) && Forfeits(s, m)
    ensures Forfeits(QueueEffect(s, e), m)
  {
    if s.rt.workClosed {
      ParseLeavesRuntime(s, e);
    }
    if AtParse(s.msgs[m].stage) {
      ParseEndsInFailure(s, e, m);
    } else {
      UnmovedByParse(s, e, m);
    }
  }

  lemma ForfeitedGrows(s: State, e: Event)
    requires Staged(s) && Enabled(s, e)
    ensures Forfeited(s) <= Forfeited(Step(s, e)) && |Forfeited(s)| <= |Forfeited(Step(s, e))|
  {
    forall m | m in Forfeited(s) ensures m in Forfeited(Step(s, e)) {
      ForfeitsAfter(s, e, m);
    }
    NoRoomForMore(Forfeited(s), Forfeited(Step(s, e)));
  }

  // ---------------------------------------------------------------- DB messages that will never be posted

  /** A message in the waiting queue can still be posted some day. */
  predicate AdmissionIsUp(s: State) {
    !s.divideClosed && !s.gate.closed && |Forfeited(s)| < s.gate.limit
  }

  /** The drain thread can still schedule the resume that comes with message m. */
  predicate Servable(s: State, m: MsgId) {
    || s.drain == DrainMustSchedule(m)
    || (s.drain == DrainMayPost(m) && !s.divideClosed)
    || (s.drain == DrainHas(m) && AdmissionIsUp(s))
    || (m in s.msgs && s.msgs[m].stage.Waiting? && AdmissionIsUp(s) && !s.waitStopped && !s.drain.DrainExited?)
  }

  function Hopeless(s: State): set<MsgId> {
    set m | m in s.msgs && !Servable(s, m)
  }

  /** Nothing that is closed opens again. */
  lemma ClosedStays(s: State, e: Event)
    requires Enabled(s, e)
    ensures var r := Step(s, e);
      && (s.divideClosed ==> r.divideClosed) && (s.gate.closed ==> r.gate.closed) && (s.waitStopped ==> r.waitStopped)
      && (s.drain.DrainExited? ==> r.drain.DrainExited?)
  {
    if AtReactor(e) {
      ClosedAtReactor(s, e);
    } else if !AtWork(e) {
      ClosedInQueues(s, e);
    }
  }

  lemma ClosedAtReactor(s: State, e: Event)
    requires AtReactor(e) && ReactorEnabled(s, e)
    ensures var r := ReactorEffect(s, e);
      && r.divideClosed == s.divideClosed && r.gate.closed == s.gate.closed
      && r.waitStopped == s.waitStopped && r.drain == s.drain
  {
  }

  lemma ClosedInQueues(s: State, e: Event)
    requires !AtReactor(e) && !AtWork(e) && QueueEnabled(s, e)
    ensures var r := QueueEffect(s, e);
      && (s.divideClosed ==> r.divideClosed) && (s.gate.closed ==> r.gate.closed) && (s.waitStopped ==> r.waitStopped)
      && (s.drain.DrainExited? ==> r.drain.DrainExited?)
  {
  }

  lemma DownStaysDown(s: State, e: Event)
    requires Staged(s) && Enabled(s, e) && AdmissionIsUp(Step(s, e))
    ensures AdmissionIsUp(s)
  {
    ClosedStays(s, e);
    ForfeitedGrows(s, e);
    SettingsStayOnce(s, e);
  }

  /** What m's way through the drain thread was before the step. */
  lemma DrainBefore(s: State, e: Event, m: MsgId)
    requires QueueInv(s) && Enabled(s, e)
    ensures var r := Step(s, e);
      && (r.drain == DrainMustSchedule(m) && s.drain != r.drain ==> s.drain == DrainMayPost(m) && !s.divideClosed)
      && (r.drain == DrainMayPost(m) && s.drain != r.drain ==> s.drain == DrainHas(m) && CanAcquire(s.gate))
      && (r.drain == DrainHas(m) && s.drain != r.drain ==>
            m in s.msgs && s.msgs[m].stage.Waiting? && !s.waitStopped && s.drain.DrainIdle?)
  {
    if AtReactor(e) {
      ClosedAtReactor(s, e);
    } else if !AtWork(e) {
      DrainBeforeInQueues(s, e, m);
    }
  }

  lemma DrainBeforeInQueues(s: State, e: Event, m: MsgId)
    requires QueueInv(s) && !AtReactor(e) && !AtWork(e) && QueueEnabled(s, e)
    ensures var r := QueueEffect(s, e);
      && (r.drain == DrainMustSchedule(m) && s.drain != r.drain ==> s.drain == DrainMayPost(m) && !s.divideClosed)
      && (r.drain == DrainMayPost(m) && s.drain != r.drain ==> s.drain == DrainHas(m) && CanAcquire(s.gate))
      && (r.drain == DrainHas(m) && s.drain != r.drain ==>
            m in s.msgs && s.msgs[m].stage.Waiting? && !s.waitStopped && s.drain.DrainIdle?)
  {
  }

  /** A message with the DB side that is waiting after a step was waiting before it, or its drain thread has ended. */
  lemma WaitingBefore(s: State, e: Event, m: MsgId)
    requires Staged(s) && Enabled(s, e) && m in s.msgs && WaitsForResume(s.msgs[m], m, s.drain)
    requires m in Step(s, e).msgs && Step(s, e).msgs[m].stage.Waiting?
    ensures s.msgs[m].stage.Waiting? || Step(s, e).drain.DrainExited?
  {
    if AtReactor(e) {
      WaitingAtReactor(s, e, m);
    } else if AtWork(e) {
      WaitingAtWork(s, e, m);
    } else {
      WaitingInQueues(s, e, m);
    }
  }

  lemma WaitingAtReactor(s: State, e: Event, m: MsgId)
    requires HandInv(s.conns, s.msgs) && QueueInv(s) && AtReactor(e) && ReactorEnabled(s, e)
    requires m in s.msgs && WaitsForResume(s.msgs[m], m, s.drain)
    ensures SameMsg(s, ReactorEffect(s, e), m)
  {
    NotAtHands(s, m);
    UnmovedByReactor(s, e, m);
  }

  lemma NotAtHands(s: State, m: MsgId)
    requires QueueInv(s) && m in s.msgs && WaitsForResume(s.msgs[m], m, s.drain)
    ensures !AtHands(s.msgs[m].stage)
  {
  }

  lemma WaitingAtWork(s: State, e: Event, m: MsgId)
    requires AtWork(e) && WorkEnabled(s, e) && m in s.msgs
    requires m in WorkEffect(s, e).msgs && WorkEffect(s, e).msgs[m].stage.Waiting?
    ensures s.msgs[m].stage.Waiting?
  {
  }

  lemma WaitingInQueues(s: State, e: Event, m: MsgId)
    requires QueueInv(s) && !AtReactor(e) && !AtWork(e) && QueueEnabled(s, e)
    requires m in s.msgs && m in QueueEffect(s, e).msgs && QueueEffect(s, e).msgs[m].stage.Waiting?
    ensures s.msgs[m].stage.Waiting? || QueueEffect(s, e).drain.DrainExited?
  {
  }

  /** A message of the DB side that cannot be posted any more, never will be. */
  lemma HopelessStays(s: State, e: Event, m: MsgId)
    requires Staged(s) && CreditInv(s.msgs, s.credit, s.gate) && Enabled(s, e)
    requires m in s.msgs && WaitsForResume(s.msgs[m], m, s.drain) && m in Hopeless(s)
    ensures !Servable(Step(s, e), m)
  {
    var r := Step(s, e);
    if Servable(r, m) {
      DrainBefore(s, e, m);
      ClosedStays(s, e);
      ForfeitsHoldCredits(s);
      if AdmissionIsUp(r) {
        DownStaysDown(s, e);
        if m in r.msgs && r.msgs[m].stage.Waiting? {
          WaitingBefore(s, e, m);
        }
      }
      assert false;
    }
  }
}
