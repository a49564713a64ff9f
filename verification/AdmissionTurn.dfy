/** `on_message` twice: as one undisturbed call of the handler, and as steps of the pipeline between which other
    threads run.  Left undisturbed, the steps do what the handler's contract says. */
module AdmissionTurn {
  import opened CreditGate
  import opened RouteClassifier
  import opened IdleCount
  import opened ReaderControl
  import opened Pipeline
  import opened PipelineSteps
  import opened PipelineTheorems
  import Q = BoundedQueue

  function Offer(s: State): Q.PushResult {
    if s.divideClosed then Q.Closed else if DivideFull(s) then Q.Full else Q.Ok
  }

  predicate Starves(s: State, m: MsgId)
    requires m in s.msgs
  {
    s.msgs[m].db && !CanAcquire(s.gate)
  }

  /** The steps of an undisturbed call for the message in the hands of c. */
  function TurnSteps(s: State, c: ConnId): seq<Event>
    requires HasInHand(s, c)
  {
    var m := s.conns[c].at.m;
    if Starves(s, m) then
      if s.waitStopped then [Starve(c), RefuseWaiting(c)] else [Starve(c), AddWaiting(c), Reactor(c, PauseReading)]
    else
      [if s.msgs[m].db then AdmitDb(c) else AdmitFast(c), CountDivide] + OfferSteps(Offer(s), c)
  }

  function OfferSteps(offer: Q.PushResult, c: ConnId): seq<Event> {
    match offer
    case Ok => [DispatchOk(c)]
    case Full => [DispatchFull(c), UncountDivide]
    case Closed => [DispatchClosed(c), UncountDivide]
  }

  /** Where the reactor stands after an answer. */
  predicate Answers(x: Conn, r: Q.PushResult) {
    match r
    case Ok => x.at.Top?
    case Full => x.at.Refused?
    case Closed => x.at.Out? && !x.connected
  }

  /** The effect in the contract of the handler, by the text of the message and what gate and queues were. */
  ghost predicate TurnEffect(s: State, r: State, c: ConnId)
    requires HasInHand(s, c)
  {
    var m := s.conns[c].at.m;
    var db := IsDb(s.dbPrefixes, s.conns[c].at.text);
    var starves := db && (s.gate.closed || s.gate.available == 0);
    var answer := if !starves then Offer(s) else if s.waitStopped then Q.Full else Q.Ok;
    && r.gate == s.gate.(available := s.gate.available - if db && !starves && answer == Q.Ok then 1 else 0)
    && (m in r.credit <==> db && !starves && answer == Q.Ok) && r.credit - {m} == s.credit - {m}
    && r.waiting == s.waiting + (if starves && answer == Q.Ok then [m] else [])
    && r.divide == s.divide + (if !starves && answer == Q.Ok then [m] else [])
    && r.divideTally.count == s.divideTally.count + |r.divide| - |s.divide|
    && r.divideTally.adding == s.divideTally.adding
    && r.conns.Keys == s.conns.Keys && Answers(r.conns[c], answer)
    && r.conns[c].paused == (s.conns[c].paused || (starves && answer == Q.Ok))
    && forall d :: d in s.conns && d != c ==> r.conns[d] == s.conns[d]
  }

  ghost predicate Leads(s: State, events: seq<Event>, r: State) {
    Possible(s, events) && Run(s, events) == r
  }

  lemma LeadsStep(s: State, e: Event, rest: seq<Event>, r: State)
    requires Enabled(s, e) && Leads(Step(s, e), rest, r)
    ensures Leads(s, [e] + rest, r)
  {
    assert ([e] + rest)[0] == e && ([e] + rest)[1..] == rest;
  }

  lemma LeadsNowhere(s: State)
    ensures Leads(s, [], s)
  {
  }

  /** What the turn needs of the state. */
  ghost predicate Turns(s: State, c: ConnId) {
    && HasInHand(s, c) && s.conns[c].at.Hand? && s.divideTally.count >= 0
    && 0 <= s.gate.available && s.conns[c].at.m !in s.credit
    && (s.msgs[s.conns[c].at.m].db <==> IsDb(s.dbPrefixes, s.conns[c].at.text))
    && (!s.gate.closed ==> s.gate.available <= s.gate.limit)
  }

  lemma ParkedTurn(s: State, c: ConnId) returns (r: State)
    requires Turns(s, c) && Starves(s, s.conns[c].at.m) && !s.waitStopped
    ensures Leads(s, TurnSteps(s, c), r)
    ensures c in r.conns
    ensures var m := s.conns[c].at.m;
      && r == s.(conns := s.conns[c := r.conns[c]], msgs := r.msgs, waiting := s.waiting + [m])
      && r.conns.Keys == s.conns.Keys && r.conns[c].at.Top? && r.conns[c].paused
  {
    var s1 := SetConn(s, c, OutOfCredit(s.conns[c]));
    var s2 := DidAddWaiting(s1, c);
    r := SetConn(s2, c, Do(s2.conns[c], PauseReading));
    LeadsNowhere(r);
    LeadsStep(s2, Reactor(c, PauseReading), [], r);
    LeadsStep(s1, AddWaiting(c), [Reactor(c, PauseReading)], r);
    LeadsStep(s, Starve(c), [AddWaiting(c), Reactor(c, PauseReading)], r);
  }

  lemma TurnedAwayTurn(s: State, c: ConnId) returns (r: State)
    requires Turns(s, c) && Starves(s, s.conns[c].at.m) && s.waitStopped
    ensures Leads(s, TurnSteps(s, c), r)
    ensures c in r.conns && r == s.(conns := s.conns[c := r.conns[c]], msgs := r.msgs)
    ensures r.conns.Keys == s.conns.Keys && r.conns[c].at.Refused? && r.conns[c].paused == s.conns[c].paused
  {
    var s1 := SetConn(s, c, OutOfCredit(s.conns[c]));
    r := DidRefuseWaiting(s1, c);
    LeadsNowhere(r);
    LeadsStep(s1, RefuseWaiting(c), [], r);
    LeadsStep(s, Starve(c), [RefuseWaiting(c)], r);
  }

  lemma StarvedTurn(s: State, c: ConnId)
    requires Turns(s, c) && Starves(s, s.conns[c].at.m)
    ensures exists r :: Leads(s, TurnSteps(s, c), r) && TurnEffect(s, r, c)
  {
    if s.waitStopped {
      var r := TurnedAwayTurn(s, c);
      assert TurnEffect(s, r, c);
    } else {
      var r := ParkedTurn(s, c);
      assert TurnEffect(s, r, c);
    }
  }

  /** Past the gate, with the credit if the message needs one. */
  function PastTheGate(s: State, c: ConnId): State
    requires HasInHand(s, c) && s.conns[c].at.Hand? && !Starves(s, s.conns[c].at.m)
  {
    if s.msgs[s.conns[c].at.m].db then DidAdmitDb(s, c) else SetConn(s, c, PastAdmission(s.conns[c]))
  }

  function Tallied(s: State): State {
    s.(divideTally := Counted(s.divideTally))
  }

  function Untallied(s: State): State
    requires s.divideTally.adding > 0
  {
    s.(divideTally := Uncounted(s.divideTally))
  }

  lemma PastFacts(s: State, c: ConnId)
    requires Turns(s, c) && !Starves(s, s.conns[c].at.m)
    ensures var m := s.conns[c].at.m; var t, db := Tallied(PastTheGate(s, c)), s.msgs[m].db;
      && t == s.(conns := s.conns[c := PastAdmission(s.conns[c])], msgs := t.msgs,
               divideTally := Counted(s.divideTally),
                 credit := if db then s.credit + {m} else s.credit, gate := if db then Acquired(s.gate) else s.gate)
      && t.msgs.Keys == s.msgs.Keys && CanDispatch(t, c)
      && (db ==> Released(t.gate) == s.gate)
  {
  }

  lemma Enters(s: State, c: ConnId, r: State)
    requires Turns(s, c) && !Starves(s, s.conns[c].at.m)
    requires Leads(Tallied(PastTheGate(s, c)), OfferSteps(Offer(s), c), r)
    ensures Leads(s, TurnSteps(s, c), r)
  {
    var admit := if s.msgs[s.conns[c].at.m].db then AdmitDb(c) else AdmitFast(c);
    var rest := OfferSteps(Offer(s), c);
    LeadsStep(PastTheGate(s, c), CountDivide, rest, r);
    LeadsStep(s, admit, [CountDivide] + rest, r);
    assert [admit] + ([CountDivide] + rest) == [admit, CountDivide] + rest;
  }

  lemma AcceptedEffect(s: State, c: ConnId)
    requires Turns(s, c) && !Starves(s, s.conns[c].at.m) && Offer(s) == Q.Ok
    ensures var t := Tallied(PastTheGate(s, c)); CanDispatch(t, c) && TurnEffect(s, DidDispatchOk(t, c), c)
  {
    PastFacts(s, c);
  }

  lemma AcceptedTurn(s: State, c: ConnId)
    requires Turns(s, c) && !Starves(s, s.conns[c].at.m) && Offer(s) == Q.Ok
    ensures exists r :: Leads(s, TurnSteps(s, c), r) && TurnEffect(s, r, c)
  {
    AcceptedEffect(s, c);
    var t := Tallied(PastTheGate(s, c));
    var r := DidDispatchOk(t, c);
    LeadsNowhere(r);
    LeadsStep(t, DispatchOk(c), [], r);
    Enters(s, c, r);
  }

  /** A credit that was taken for nothing is given back. */
  lemma RefusedEffect(s: State, c: ConnId)
    requires Turns(s, c) && !Starves(s, s.conns[c].at.m) && Offer(s) != Q.Ok
    ensures var t := Tallied(PastTheGate(s, c));
      CanDispatch(t, c) && TurnEffect(s, Untallied(RefusedBy(t, c, Offer(s))), c)
  {
    PastFacts(s, c);
    RefusalGivesBack(Tallied(PastTheGate(s, c)), c, Offer(s));
    var m := s.conns[c].at.m;
    assert s.credit + {m} - {m} == s.credit;
  }

  function RefusedBy(t: State, c: ConnId, offer: Q.PushResult): (r: State)
    requires CanDispatch(t, c)
    ensures r.divideTally == t.divideTally
  {
    if offer == Q.Full then DidDispatchFull(t, c) else DidDispatchClosed(t, c)
  }

  function RefusedConn(x: Conn, offer: Q.PushResult): Conn
    requires x.at.Admitted?
  {
    if offer == Q.Full then TurnedAway(x) else x.(connected := false, at := Out)
  }

  lemma RefusalGivesBack(t: State, c: ConnId, offer: Q.PushResult)
    requires CanDispatch(t, c)
    ensures var m, r := t.conns[c].at.m, RefusedBy(t, c, offer);
      && r.credit == t.credit - {m} && r.gate == (if m in t.credit then Released(t.gate) else t.gate)
      && r.waiting == t.waiting && r.divide == t.divide
      && r.conns == t.conns[c := RefusedConn(t.conns[c], offer)]
  {
    if offer == Q.Full {
      var r := DidDispatchFull(t, c);
    } else {
      var r := DidDispatchClosed(t, c);
    }
  }

  lemma RefusalLeads(t: State, c: ConnId)
    requires CanDispatch(t, c) && t.divideTally.adding > 0 && Offer(t) != Q.Ok
    ensures Leads(t, OfferSteps(Offer(t), c), Untallied(RefusedBy(t, c, Offer(t))))
  {
    var u := RefusedBy(t, c, Offer(t));
    LeadsNowhere(Untallied(u));
    LeadsStep(u, UncountDivide, [], Untallied(u));
    LeadsStep(t, OfferSteps(Offer(t), c)[0], [UncountDivide], Untallied(u));
  }

  lemma RefusedTurn(s: State, c: ConnId)
    requires Turns(s, c) && !Starves(s, s.conns[c].at.m) && Offer(s) != Q.Ok
    ensures exists r :: Leads(s, TurnSteps(s, c), r) && TurnEffect(s, r, c)
  {
    RefusedEffect(s, c);
    var t := Tallied(PastTheGate(s, c));
    assert Offer(t) == Offer(s);
    RefusalLeads(t, c);
    Enters(s, c, Untallied(RefusedBy(t, c, Offer(s))));
  }

  /** In every reachable state, from a reactor that has just entered `on_message`: its undisturbed steps are possible,
      and have the answer and the effect of the handler. */
  lemma TurnIsTheHandlers(cfg: Config, s: State, c: ConnId)
    requires cfg.window >= 1 && Reachable(cfg, s) && c in s.conns && s.conns[c].at.Hand?
    ensures s.dbPrefixes == cfg.dbPrefixes
    ensures HasInHand(s, c) && exists r :: Leads(s, TurnSteps(s, c), r) && TurnEffect(s, r, c)
  {
    ReachableTurns(cfg, s, c);
    if Starves(s, s.conns[c].at.m) {
      StarvedTurn(s, c);
    } else if Offer(s) == Q.Ok {
      AcceptedTurn(s, c);
    } else {
      RefusedTurn(s, c);
    }
  }

  lemma ReachableTurns(cfg: Config, s: State, c: ConnId)
    requires cfg.window >= 1 && Reachable(cfg, s) && c in s.conns && s.conns[c].at.Hand?
    ensures Turns(s, c) && s.dbPrefixes == cfg.dbPrefixes
  {
    ReachableIsSound(cfg, s);
    LedgersTurn(s, c);
  }

  lemma LedgersTurn(s: State, c: ConnId)
    requires CreditInv(s.msgs, s.credit, s.gate) && HandInv(s.conns, s.msgs) && DivideInv(s)
    requires Labelled(s) && HandTexts(s)
    requires c in s.conns && s.conns[c].at.Hand?
    ensures Turns(s, c)
  {
    assert AtInv(s.conns[c].at, c, s.msgs);
  }
}
