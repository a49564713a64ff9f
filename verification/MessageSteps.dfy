/** Which steps of the pipeline move which messages. */
module MessageSteps {
  import opened ReaderControl
  import opened Pipeline
  import opened PipelineProofs
  import RT = CoroutineRuntime

  predicate SameMsg(s: State, r: State, m: MsgId) {
    m in s.msgs && m in r.msgs && r.msgs[m] == s.msgs[m]
  }

  /** Messages that a reactor, the DB side and the parse pool move. */
  predicate AtHands(stage: Stage) {
    stage.InHand? || stage.Credited? || stage.TurnedDown?
  }

  predicate AtDbSide(stage: Stage) {
    stage.Waiting? || stage.Draining? || stage.DrainCredited?
  }

  predicate AtParse(stage: Stage) {
    stage.InDivide? || stage.Parsing?
  }

  /** The work pool moves those that a worker is about to settle. */
  predicate AtWorkers(s: State, m: MsgId)
    requires m in s.msgs
  {
    s.msgs[m].stage.Settled? || (s.msgs[m].stage.InWork? && (m !in s.rt.place || s.rt.place[m].Executing?))
  }

  predicate OfParse(e: Event) {
    e.ParsePop? || e.ParseOk? || e.ParseDropped? || e.ParseThrow?
  }

  predicate OfHands(e: Event) {
    || e.AdmitDb? || e.AddWaiting? || e.RefuseWaiting? || e.DispatchOk? || e.DispatchFull? || e.DispatchClosed?
    || e.GiveBack?
  }

  lemma UnmovedByReactor(s: State, e: Event, m: MsgId)
    requires HandInv(s.conns, s.msgs) && AtReactor(e) && ReactorEnabled(s, e)
    requires m in s.msgs && !AtHands(s.msgs[m].stage)
    ensures SameMsg(s, ReactorEffect(s, e), m)
  {
    if OfHands(e) {
      assert AtInv(s.conns[e.c].at, e.c, s.msgs);
      OnlyTheOneInHand(s, e, m);
    } else {
      UnmovedBefore(s, e, m);
    }
  }

  lemma OnlyTheOneInHand(s: State, e: Event, m: MsgId)
    requires AtReactor(e) && ReactorEnabled(s, e) && OfHands(e) && m in s.msgs && m != s.conns[e.c].at.m
    ensures SameMsg(s, ReactorEffect(s, e), m)
  {
  }

  lemma UnmovedBefore(s: State, e: Event, m: MsgId)
    requires AtReactor(e) && ReactorEnabled(s, e) && !OfHands(e) && m in s.msgs
    ensures SameMsg(s, ReactorEffect(s, e), m)
  {
  }

  lemma UnmovedInQueues(s: State, e: Event, m: MsgId)
    requires QueueInv(s) && !AtReactor(e) && !AtWork(e) && QueueEnabled(s, e) && !OfParse(e)
    requires m in s.msgs && !AtDbSide(s.msgs[m].stage)
    ensures SameMsg(s, QueueEffect(s, e), m)
  {
  }

  lemma UnmovedByParse(s: State, e: Event, m: MsgId)
    requires QueueInv(s) && OfParse(e) && QueueEnabled(s, e) && m in s.msgs && !AtParse(s.msgs[m].stage)
    ensures SameMsg(s, QueueEffect(s, e), m)
  {
  }

  lemma UnmovedByWork(s: State, e: Event, m: MsgId)
    requires WorkInv(s.msgs, s.rt.place, s.rt.workers) && RT.PlacesInv(s.rt) && AtWork(e) && WorkEnabled(s, e)
    requires m in s.msgs && !AtWorkers(s, m)
    ensures SameMsg(s, WorkEffect(s, e), m)
  {
    if e.ReturnCredit? || e.FinishOne? {
      FlowIsInWork(s, e.w);
    }
  }

  /** Every thread finds the messages it moves at their stages. */
  ghost predicate Staged(s: State) {
    HandInv(s.conns, s.msgs) && QueueInv(s) && WorkInv(s.msgs, s.rt.place, s.rt.workers) && RT.PlacesInv(s.rt)
  }

  /** All other messages stay as they are. */
  lemma Unmoved(s: State, e: Event, m: MsgId)
    requires Staged(s) && Enabled(s, e) && m in s.msgs && !AtHands(s.msgs[m].stage)
    requires !AtDbSide(s.msgs[m].stage) && !AtParse(s.msgs[m].stage) && !AtWorkers(s, m)
    ensures SameMsg(s, Step(s, e), m)
  {
    if AtReactor(e) {
      UnmovedByReactor(s, e, m);
    } else if AtWork(e) {
      UnmovedByWork(s, e, m);
    } else if OfParse(e) {
      UnmovedByParse(s, e, m);
    } else {
      UnmovedInQueues(s, e, m);
    }
  }
}
