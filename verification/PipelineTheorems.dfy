/** What holds in every run of the pipeline: the two ledgers, byte streams, what a lost message costs, and what an idle
    parse pool is. */
module PipelineTheorems {
  import opened Framing
  import opened Sequences
  import opened FlowWindow
  import opened CreditGate
  import opened RouteClassifier
  import opened ReaderControl
  import opened Pipeline
  import opened PipelineProofs
  import opened MessageSteps
  import opened PipelineSteps
  import opened PipelineChoices
  import RT = CoroutineRuntime
  import CT = CoroutineTheorems

  /** No step takes property p away. */
  ghost predicate Kept(p: State -> bool) {
    forall s, e :: p(s) && Enabled(s, e) ==> p(Step(s, e))
  }

  /** s has every property of the start that no step takes away.  By `ReachableByRuns`, some run leads to it. */
  ghost predicate Reachable(cfg: Config, s: State) {
    forall p: State -> bool :: p(NewState(cfg)) && Kept(p) ==> p(s)
  }

  ghost predicate SomeRunLeadsTo(cfg: Config, s: State) {
    exists events :: Possible(NewState(cfg), events) && Run(NewState(cfg), events) == s
  }

  /** The reachable states are those that runs lead to. */
  lemma ReachableByRuns(cfg: Config, s: State)
    ensures Reachable(cfg, s) <==> SomeRunLeadsTo(cfg, s)
  {
    if Reachable(cfg, s) {
      RunsGoOn(cfg);
      assert Possible(NewState(cfg), []) && Run(NewState(cfg), []) == NewState(cfg);
      var p := (t: State) => SomeRunLeadsTo(cfg, t);
      assert p(NewState(cfg)) && Kept(p);
    }
    if SomeRunLeadsTo(cfg, s) {
      var events :| Possible(NewState(cfg), events) && Run(NewState(cfg), events) == s;
      forall p: State -> bool | p(NewState(cfg)) && Kept(p) ensures p(s) {
        KeptByRuns(p, NewState(cfg), events);
      }
    }
  }

  lemma RunsGoOn(cfg: Config)
    ensures Kept((t: State) => SomeRunLeadsTo(cfg, t))
  {
    forall s, e | SomeRunLeadsTo(cfg, s) && Enabled(s, e) ensures SomeRunLeadsTo(cfg, Step(s, e)) {
      var xs :| Possible(NewState(cfg), xs) && Run(NewState(cfg), xs) == s;
      RunFurther(NewState(cfg), xs, e);
    }
  }

  lemma {:induction false} RunFurther(s: State, xs: seq<Event>, e: Event)
    requires Possible(s, xs) && Enabled(Run(s, xs), e)
    ensures Possible(s, xs + [e]) && Run(s, xs + [e]) == Step(Run(s, xs), e)
    decreases |xs|
  {
    if xs == [] {
      assert xs + [e] == [e];
    } else {
      RunFurther(Step(s, xs[0]), xs[1..], e);
      assert (xs + [e])[0] == xs[0] && (xs + [e])[1..] == xs[1..] + [e];
    }
  }

  lemma {:induction false} KeptByRuns(p: State -> bool, s: State, events: seq<Event>)
    requires Kept(p) && p(s) && Possible(s, events)
    ensures p(Run(s, events))
    decreases |events|
  {
    if events != [] {
      KeptByRuns(p, Step(s, events[0]), events[1..]);
    }
  }

  ghost predicate Sound(cfg: Config, s: State) {
    && Inv(s) && Labelled(s) && HandTexts(s)
    && s.gate.limit == cfg.limit && s.window == cfg.window && s.dbPrefixes == cfg.dbPrefixes
  }

  lemma SoundAfter(cfg: Config, s: State, e: Event)
    requires Sound(cfg, s) && Enabled(s, e)
    ensures Sound(cfg, Step(s, e))
  {
    StepKeeps(s, e);
    LabelsStay(s, e);
    HandTextsStay(s, e);
    SettingsStayOnce(s, e);
  }

  lemma SoundIsKept(cfg: Config)
    ensures Kept((s: State) => Sound(cfg, s))
  {
    forall s, e | Sound(cfg, s) && Enabled(s, e) ensures Sound(cfg, Step(s, e)) {
      SoundAfter(cfg, s, e);
    }
  }

  lemma StartIsSound(cfg: Config)
    requires cfg.window >= 1
    ensures Sound(cfg, NewState(cfg))
  {
    StartKeeps(cfg);
  }

  lemma FromTheStart(cfg: Config, s: State, p: State -> bool)
    requires Reachable(cfg, s) && p(NewState(cfg)) && Kept(p)
    ensures p(s)
  {
  }

  lemma ReachableIsSound(cfg: Config, s: State)
    requires cfg.window >= 1 && Reachable(cfg, s)
    ensures Sound(cfg, s)
  {
    StartIsSound(cfg);
    SoundIsKept(cfg);
    FromTheStart(cfg, s, (t: State) => Sound(cfg, t));
  }

  lemma ReachableInv(cfg: Config, s: State)
    requires cfg.window >= 1 && Reachable(cfg, s)
    ensures Inv(s) && s.gate.limit == cfg.limit && s.window == cfg.window && s.dbPrefixes == cfg.dbPrefixes
  {
    ReachableIsSound(cfg, s);
  }

  lemma {:induction false} SettingsStay(s: State, events: seq<Event>)
    requires Possible(s, events)
    ensures var r := Run(s, events);
            r.gate.limit == s.gate.limit && r.window == s.window && r.dbPrefixes == s.dbPrefixes
    decreases |events|
  {
    if events != [] {
      SettingsStayOnce(s, events[0]);
      SettingsStay(Step(s, events[0]), events[1..]);
    }
  }

  lemma SettingsStayOnce(s: State, e: Event)
    requires Enabled(s, e)
    ensures var r := Step(s, e);
            r.gate.limit == s.gate.limit && r.window == s.window && r.dbPrefixes == s.dbPrefixes
  {
    if AtReactor(e) {
      SettingsAtReactor(s, e);
    }
  }

  lemma SettingsAtReactor(s: State, e: Event)
    requires ReactorEnabled(s, e)
    ensures var r := ReactorEffect(s, e);
            r.gate.limit == s.gate.limit && r.window == s.window && r.dbPrefixes == s.dbPrefixes
  {
  }

  // ---------------------------------------------------------------- texts decide

  /** The text of a message is what its reactor cut out of the stream and holds while the message is in its hands, and
      the text alone decides whether it is a DB message: exactly if one of the DB prefixes begins it. */
  lemma TextDecides(cfg: Config, s: State, m: MsgId, c: ConnId)
    requires cfg.window >= 1 && Reachable(cfg, s)
    ensures m in s.msgs ==>
      (s.msgs[m].db <==> exists i :: 0 <= i < |cfg.dbPrefixes| && cfg.dbPrefixes[i] <= s.msgs[m].text)
    ensures c in s.conns && InHands(s.conns[c].at) ==>
      && s.conns[c].at.m in s.msgs && s.msgs[s.conns[c].at.m].conn == c
      && s.msgs[s.conns[c].at.m].text == s.conns[c].at.text
  {
    ReachableIsSound(cfg, s);
    LabelsByText(cfg, s);
    if c in s.conns && InHands(s.conns[c].at) {
      HandByText(s, c);
    }
  }

  lemma LabelsByText(cfg: Config, s: State)
    requires Labelled(s) && s.dbPrefixes == cfg.dbPrefixes
    ensures forall m :: m in s.msgs ==>
      (s.msgs[m].db <==> exists i :: 0 <= i < |cfg.dbPrefixes| && cfg.dbPrefixes[i] <= s.msgs[m].text)
  {
    forall m | m in s.msgs
      ensures s.msgs[m].db <==> exists i :: 0 <= i < |cfg.dbPrefixes| && cfg.dbPrefixes[i] <= s.msgs[m].text
    {
      assert s.msgs[m].db <==> IsDb(s.dbPrefixes, s.msgs[m].text);
    }
  }

  lemma HandByText(s: State, c: ConnId)
    requires HandInv(s.conns, s.msgs) && HandTexts(s) && c in s.conns && InHands(s.conns[c].at)
    ensures var at := s.conns[c].at; at.m in s.msgs && s.msgs[at.m].conn == c && s.msgs[at.m].text == at.text
  {
    assert AtInv(s.conns[c].at, c, s.msgs);
  }

  /** Which thread can go on when, in every reachable state, each choice by what the source looks at. */
  lemma NobodyIsStuck(cfg: Config, s: State)
    requires cfg.window >= 1 && Reachable(cfg, s)
    ensures s.dbPrefixes == cfg.dbPrefixes && s.window == cfg.window
    ensures forall c :: c in s.conns ==> ReactorMay(s, c)
    ensures DrainMay(s) && ParseMay(s) && WorkMay(s)
  {
    ReachableIsSound(cfg, s);
    forall c | c in s.conns ensures ReactorMay(s, c) {
      ReactorChooses(s, c);
    }
    DrainChooses(s);
    ParseChooses(s);
    SettlersAreKnown(s);
    WorkChooses(s);
  }

  // ---------------------------------------------------------------- the credit ledger

  /** The DB messages past admission whose flow has not ended, and those lost in a parse that threw. */
  function CreditHolders(s: State): set<MsgId> {
    set m | m in s.msgs && HoldsCredit(s.msgs[m])
  }

  predicate UsesCredit(stage: Stage) {
    stage.Credited? || stage.DrainCredited? || stage.InDivide? || stage.Parsing? || stage.InWork? || stage.ParseFailed?
  }

  /** While the gate is open, the credits missing from it are exactly those of the holders - the messages whose text
      begins with a DB prefix, from their admission to the end of their flow: none leaks otherwise, none is returned
      twice; and whoever holds one finds room at the gate, so its bound never turns a release away. */
  lemma CreditLedger(cfg: Config, s: State)
    requires cfg.window >= 1 && Reachable(cfg, s)
    ensures forall m :: m in CreditHolders(s) <==>
      && m in s.msgs && UsesCredit(s.msgs[m].stage)
      && exists i :: 0 <= i < |cfg.dbPrefixes| && cfg.dbPrefixes[i] <= s.msgs[m].text
    ensures 0 <= s.gate.available
    ensures !s.gate.closed ==> cfg.limit - s.gate.available == |CreditHolders(s)|
    ensures !s.gate.closed && CreditHolders(s) != {} ==> s.gate.available < cfg.limit
  {
    ReachableIsSound(cfg, s);
    LedgerBalances(s);
    HoldersByText(cfg, s);
  }

  lemma LedgerBalances(s: State)
    requires CreditInv(s.msgs, s.credit, s.gate)
    ensures 0 <= s.gate.available
    ensures !s.gate.closed ==> s.gate.limit - s.gate.available == |CreditHolders(s)|
    ensures !s.gate.closed && CreditHolders(s) != {} ==> s.gate.available < s.gate.limit
  {
    assert CreditHolders(s) == s.credit;
  }

  lemma HoldersByText(cfg: Config, s: State)
    requires Labelled(s) && s.dbPrefixes == cfg.dbPrefixes
    ensures forall m :: m in CreditHolders(s) <==>
      && m in s.msgs && UsesCredit(s.msgs[m].stage)
      && exists i :: 0 <= i < |cfg.dbPrefixes| && cfg.dbPrefixes[i] <= s.msgs[m].text
  {
    LabelsByText(cfg, s);
  }

  /** A DB message in the coroutine runtime, through any number of suspensions and resumptions, holds exactly one
      credit until its worker has given it back at the end of the flow; other messages never hold one. */
  lemma FlowHoldsItsCredit(cfg: Config, s: State, m: MsgId)
    requires cfg.window >= 1 && Reachable(cfg, s) && m in s.rt.place
    ensures m in s.msgs
    ensures m in CreditHolders(s) <==> s.msgs[m].db && !SettledBy(m, s.rt.place, s.rt.workers)
  {
    ReachableInv(cfg, s);
    InWorkHoldsCredit(s, m);
  }

  lemma InWorkHoldsCredit(s: State, m: MsgId)
    requires WorkInv(s.msgs, s.rt.place, s.rt.workers) && m in s.rt.place
    ensures m in s.msgs
    ensures m in CreditHolders(s) <==> s.msgs[m].db && !SettledBy(m, s.rt.place, s.rt.workers)
  {
    if SettledBy(m, s.rt.place, s.rt.workers) {
      assert s.rt.workers[s.rt.place[m].worker].GivingSlot?;
    }
  }

  // ---------------------------------------------------------------- the window ledger

  /** The messages of connection c that have taken a slot and not given it back. */
  function SlotHolders(s: State, c: ConnId): set<MsgId> {
    set m | m in s.msgs && s.msgs[m].conn == c && HoldsSlot(s.msgs[m])
  }

  /** The counter of every connection is the number of its slot holders and never exceeds the window; "full" says
      just that the window is used up. */
  lemma WindowLedger(cfg: Config, s: State, c: ConnId)
    requires cfg.window >= 1 && Reachable(cfg, s) && c in s.conns
    ensures var f := s.conns[c].flow;
      && f.inFlight == |SlotHolders(s, c)| <= cfg.window == f.window
      && (f.full <==> f.inFlight == cfg.window)
      && !(f.full && f.resumePending)
  {
    ReachableInv(cfg, s);
    SlotsAreCounted(s, c);
    assert ConnInv(s.conns[c]);
  }

  lemma SlotsAreCounted(s: State, c: ConnId)
    requires SlotInv(s.conns, s.msgs) && c in s.conns
    ensures s.conns[c].flow.inFlight == |SlotHolders(s, c)|
  {
    assert SlotsOf(s.conns[c], c, s.msgs);
    assert s.conns[c].slots == SlotHolders(s, c);
  }

  // ---------------------------------------------------------------- what a lost message costs

  predicate Over(stage: Stage) {
    stage.Returned? || Lost(stage)
  }

  /** Dropped with its slot, and a failed parse with its credit too. */
  predicate Lost(stage: Stage) {
    stage.ParseFailed? || stage.Unposted?
  }

  lemma OverStaysOver(s: State, e: Event, m: MsgId)
    requires Staged(s) && Enabled(s, e) && m in s.msgs && Over(s.msgs[m].stage)
    ensures m in Step(s, e).msgs && Step(s, e).msgs[m] == s.msgs[m]
  {
    Unmoved(s, e, m);
  }

  /** Once over, a message never comes to life again: a slot given back is given back once and for all, and a lost
      message keeps its slot - and a failed parse its credit - for the rest of the run. */
  lemma {:induction false} OverForGood(s: State, events: seq<Event>, m: MsgId)
    requires Inv(s) && Possible(s, events) && m in s.msgs && Over(s.msgs[m].stage)
    ensures m in Run(s, events).msgs && Run(s, events).msgs[m] == s.msgs[m]
    decreases |events|
  {
    if events != [] {
      OverStaysOver(s, events[0], m);
      StepKeeps(s, events[0]);
      OverForGood(Step(s, events[0]), events[1..], m);
    }
  }

  lemma LostStayLost(s: State, events: seq<Event>, lost: set<MsgId>)
    requires Inv(s) && Possible(s, events)
    requires forall m :: m in lost ==> m in s.msgs && Lost(s.msgs[m].stage)
    ensures var r := Run(s, events); forall m :: m in lost ==> m in r.msgs && r.msgs[m] == s.msgs[m]
  {
    forall m | m in lost ensures m in Run(s, events).msgs && Run(s, events).msgs[m] == s.msgs[m] {
      OverForGood(s, events, m);
    }
  }

  /** As many lost messages as the window has slots: the connection is shut out from then on. */
  lemma LostMessagesFillTheWindow(s: State, events: seq<Event>, c: ConnId, lost: set<MsgId>)
    requires Inv(s) && Possible(s, events) && |lost| == s.window
    requires forall m :: m in lost ==> m in s.msgs && s.msgs[m].conn == c && Lost(s.msgs[m].stage)
    ensures var r := Run(s, events);
            c in r.conns && r.conns[c].flow.full && !Taking(r.conns[c].flow).yes && SlotHolders(r, c) == lost
  {
    EveryRunKeeps(s, events);
    SettingsStay(s, events);
    LostStayLost(s, events, lost);
    FullOfLost(Run(s, events), c, lost);
  }

  lemma FullOfLost(s: State, c: ConnId, lost: set<MsgId>)
    requires SlotInv(s.conns, s.msgs) && ControlInv(s) && |lost| == s.window
    requires forall m :: m in lost ==> m in s.msgs && s.msgs[m].conn == c && Lost(s.msgs[m].stage)
    ensures c in s.conns && s.conns[c].flow.full && !Taking(s.conns[c].flow).yes && SlotHolders(s, c) == lost
  {
    var m :| m in lost;
    assert s.msgs[m].conn == c;
    assert SlotsOf(s.conns[c], c, s.msgs) && ConnInv(s.conns[c]);
    assert s.conns[c].slots == SlotHolders(s, c);
    NoRoomForMore(lost, s.conns[c].slots);
  }

  lemma NoRoomForMore(part: set<MsgId>, whole: set<MsgId>)
    requires part <= whole
    ensures |part| <= |whole|
    ensures |whole| <= |part| ==> part == whole
  {
    assert whole == part + (whole - part);
    if |whole| <= |part| {
      assert whole - part == {};
    }
  }

  /** As many failed parses of DB messages as the gate has credits: no DB message is admitted any more. */
  lemma FailedParsesDrainTheGate(s: State, events: seq<Event>, lost: set<MsgId>)
    requires Inv(s) && Possible(s, events) && |lost| == s.gate.limit
    requires forall m :: m in lost ==> m in s.msgs && s.msgs[m].db && s.msgs[m].stage.ParseFailed?
    ensures !CanAcquire(Run(s, events).gate)
  {
    EveryRunKeeps(s, events);
    SettingsStay(s, events);
    LostStayLost(s, events, lost);
    NoCreditLeft(Run(s, events), lost);
  }

  lemma NoCreditLeft(s: State, lost: set<MsgId>)
    requires CreditInv(s.msgs, s.credit, s.gate) && |lost| == s.gate.limit
    requires forall m :: m in lost ==> m in s.msgs && s.msgs[m].db && s.msgs[m].stage.ParseFailed?
    ensures !CanAcquire(s.gate)
  {
    assert lost <= s.credit;
    NoRoomForMore(lost, s.credit);
  }

  /** The failed parses of DB messages. */
  function FailedDb(s: State): set<MsgId> {
    set m | m in s.msgs && s.msgs[m].db && s.msgs[m].stage.ParseFailed?
  }

  /** The messages of c that were dropped with their slot. */
  function LostOf(s: State, c: ConnId): set<MsgId> {
    set m | m in s.msgs && s.msgs[m].conn == c && Lost(s.msgs[m].stage)
  }

  /** Failed parses alone decide: with the gate open and no DB message in progress, a DB message is admitted if and only
      if fewer parses have failed than the gate has credits. */
  lemma GateAtRest(cfg: Config, s: State)
    requires cfg.window >= 1 && Reachable(cfg, s) && !s.gate.closed && CreditHolders(s) <= FailedDb(s)
    ensures s.gate.available == cfg.limit - |FailedDb(s)|
    ensures CanAcquire(s.gate) <==> |FailedDb(s)| < cfg.limit
  {
    CreditLedger(cfg, s);
    assert FailedDb(s) == CreditHolders(s);
  }

  /** And dropped messages alone: with none of its messages in progress, a connection's window is full if and only if as
      many were dropped as it has slots. */
  lemma WindowAtRest(cfg: Config, s: State, c: ConnId)
    requires cfg.window >= 1 && Reachable(cfg, s) && c in s.conns && SlotHolders(s, c) <= LostOf(s, c)
    ensures s.conns[c].flow.inFlight == |LostOf(s, c)|
    ensures s.conns[c].flow.full <==> |LostOf(s, c)| == cfg.window
  {
    WindowLedger(cfg, s, c);
    assert LostOf(s, c) == SlotHolders(s, c);
  }

  // ---------------------------------------------------------------- byte streams

  /** Over every run, for any chunking and any pauses, push-backs and refusals: the messages of a connection that were
      taken up, the one in the reactor's hands, then what buffer and unread bytes decode to, are what the whole input
      decodes to; a closed connection took up a prefix. */
  lemma StreamIsKept(cfg: Config, s: State, c: ConnId, unread: string)
    requires cfg.window >= 1 && Reachable(cfg, s) && c in s.conns
    ensures var x := s.conns[c];
            var all, ahead := Decode(x.received + unread), Decode(x.buffer + unread);
            if x.connected then all == Decoded(x.taken + Held(x.at) + ahead.msgs, ahead.rest)
            else x.taken <= all.msgs
  {
    ReachableInv(cfg, s);
    var x := s.conns[c];
    assert Lossless(x);
    DecodeAppend(x.received, unread);
    if x.connected {
      DecodeAppend(x.buffer, unread);
      var here := Decode(x.buffer);
      AppendAssociates(x.taken + Held(x.at), here.msgs, Decode(here.rest + unread).msgs);
    }
  }

  // ---------------------------------------------------------------- idle means idle

  /** The counter of the parse pool is what is being added, queued, parsed, or about to call `finish_task`. */
  lemma ParseCountIsExact(cfg: Config, s: State)
    requires cfg.window >= 1 && Reachable(cfg, s)
    ensures s.divideTally.count == s.divideTally.adding + (|s.divide| - s.divideHead) + |s.parsing| + s.parseDone
    ensures s.parseDone > 0 ==> s.divideTally.count > 0
  {
    ReachableInv(cfg, s);
  }

  predicate ParseIsOver(s: State) {
    s.divideClosed && s.divideHead == |s.divide| && s.parsing == {}
  }

  lemma NobodyParses(s: State)
    requires DivideInv(s) && ParseIsOver(s)
    ensures !CanParsePop(s) && forall m :: !IsParsing(s, m)
  {
    forall m ensures !IsParsing(s, m) {
      assert m !in s.parsing;
    }
  }

  lemma ParseOverStays(s: State, e: Event)
    requires DivideInv(s) && Enabled(s, e) && ParseIsOver(s)
    ensures ParseIsOver(Step(s, e))
  {
    NobodyParses(s);
    if AtReactor(e) {
      ParseOverAtReactor(s, e);
    } else {
      ParseOverAtPools(s, e);
    }
  }

  lemma ParseOverAtReactor(s: State, e: Event)
    requires ReactorEnabled(s, e) && ParseIsOver(s)
    ensures ParseIsOver(ReactorEffect(s, e))
  {
  }

  lemma ParseOverAtPools(s: State, e: Event)
    requires !AtReactor(e) && PoolEnabled(s, e) && ParseIsOver(s)
    requires !e.ParsePop? && !e.ParseOk? && !e.ParseDropped? && !e.ParseThrow?
    ensures ParseIsOver(PoolEffect(s, e))
  {
  }

  lemma {:induction false} ParseOverForGood(s: State, events: seq<Event>)
    requires Inv(s) && Possible(s, events) && ParseIsOver(s)
    ensures ParseIsOver(Run(s, events))
    decreases |events|
  {
    if events != [] {
      ParseOverStays(s, events[0]);
      StepKeeps(s, events[0]);
      ParseOverForGood(Step(s, events[0]), events[1..]);
    }
  }

  /** Handed to the work pool at some time, or failed. */
  predicate PastParsing(stage: Stage) {
    stage.InWork? || stage.Settled? || stage.Returned? || stage.ParseFailed?
  }

  /** Idle means idle: once the parse pool is closed and its count has been seen as zero, in every later state no
      message is queued in it or being parsed, and every message it ever accepted was handed to the work pool or
      failed. */
  lemma ParseIdleIsForever(cfg: Config, before: seq<Event>, after: seq<Event>)
    requires cfg.window >= 1 && Possible(NewState(cfg), before)
    requires var s := Run(NewState(cfg), before); s.divideClosed && s.divideTally.count == 0 && Possible(s, after)
    ensures var r := Run(Run(NewState(cfg), before), after);
      && (forall m :: m in r.msgs ==> !r.msgs[m].stage.InDivide? && !r.msgs[m].stage.Parsing?)
      && (forall t :: 0 <= t < |r.divide| ==> r.divide[t] in r.msgs && PastParsing(r.msgs[r.divide[t]].stage))
  {
    var s := Run(NewState(cfg), before);
    StartKeeps(cfg);
    EveryRunKeeps(NewState(cfg), before);
    assert |s.parsing| == 0;
    ParseOverForGood(s, after);
    EveryRunKeeps(s, after);
    OverIsPastParsing(Run(s, after));
  }

  lemma OverIsPastParsing(s: State)
    requires DivideInv(s) && ParseIsOver(s)
    ensures forall m :: m in s.msgs ==> !s.msgs[m].stage.InDivide? && !s.msgs[m].stage.Parsing?
    ensures forall t :: 0 <= t < |s.divide| ==> s.divide[t] in s.msgs && PastParsing(s.msgs[s.divide[t]].stage)
  {
  }

  // ---------------------------------------------------------------- the bookkeeping of the model is sound

  predicate Settling(x: RT.Worker) {
    x.Ending? || x.GivingSlot? || x.Checking?
  }

  /** Where the source has a next step, the model has one: its own lookups never stand in the way. */
  lemma LookupsNeverBlock(cfg: Config, s: State)
    requires cfg.window >= 1 && Reachable(cfg, s)
    ensures s.waitHead < |s.waiting| ==> s.waiting[s.waitHead] in s.msgs
    ensures s.divideHead < |s.divide| ==> s.divide[s.divideHead] in s.msgs
    ensures s.drain.DrainHas? || s.drain.DrainMayPost? || s.drain.DrainMustSchedule? ==> DrainHolds(s)
    ensures s.drain.DrainHas? ==> s.waitHead > 0
    ensures forall w :: w in s.rt.workers && Settling(s.rt.workers[w]) ==> WorksFor(s, w)
    ensures forall c :: c in s.conns
              && (s.conns[c].at.Hand? || s.conns[c].at.Admitted? || s.conns[c].at.Starved? || s.conns[c].at.Refused?)
              ==> HasInHand(s, c)
  {
    ReachableInv(cfg, s);
    SettlersAreKnown(s);
    HandsAreKnown(s);
  }

  lemma SettlersAreKnown(s: State)
    requires WorkInv(s.msgs, s.rt.place, s.rt.workers) && SlotInv(s.conns, s.msgs) && RT.PlacesInv(s.rt)
    ensures forall w :: w in s.rt.workers && Settling(s.rt.workers[w]) ==> WorksFor(s, w)
  {
    forall w | w in s.rt.workers && Settling(s.rt.workers[w]) ensures WorksFor(s, w) {
      if !s.rt.workers[w].Checking? {
        FlowIsInWork(s, w);
      }
    }
  }

  lemma HandsAreKnown(s: State)
    requires HandInv(s.conns, s.msgs)
    ensures forall c :: c in s.conns
              && (s.conns[c].at.Hand? || s.conns[c].at.Admitted? || s.conns[c].at.Starved? || s.conns[c].at.Refused?)
              ==> HasInHand(s, c)
  {
    forall c | c in s.conns
      && (s.conns[c].at.Hand? || s.conns[c].at.Admitted? || s.conns[c].at.Starved? || s.conns[c].at.Refused?)
      ensures HasInHand(s, c)
    {
      assert AtInv(s.conns[c].at, c, s.msgs);
    }
  }

  /** The whole pipeline keeps what the runtime promises: one thread per coroutine, and nothing that could resume a
      flow while its worker is still suspending it. */
  lemma OneThreadPerCoroutine(cfg: Config, s: State, v: Thread, w: Thread)
    requires cfg.window >= 1 && Reachable(cfg, s)
    requires v in s.rt.workers && w in s.rt.workers && v != w
    requires RT.OnCoroutine(s.rt.workers[v]) && RT.OnCoroutine(s.rt.workers[w])
    ensures s.rt.workers[v].flow != s.rt.workers[w].flow
    ensures s.rt.workers[w].Awaiting? ==> CT.NothingAhead(s.rt, w)
  {
    ReachableInv(cfg, s);
    if s.rt.workers[w].Awaiting? {
      CT.NothingAheadOf(s.rt, w);
    }
  }
}
