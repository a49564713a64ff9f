/** Connections that nobody will ever serve again: which ones these are, wherever their reactor stands, and what makes
    a connection one of them.  `hopeless` are messages that the drain thread will never post. */
module Deafness {
  import opened Framing
  import opened FlowWindow
  import opened Wrappers
  import opened ReaderControl

  /** Reading is paused, or the window waits for a resume that no worker is about to schedule. */
  predicate Halted(c: Conn) {
    c.paused || (c.flow.resumePending && c.needy == {})
  }

  /** Nobody will end what keeps the reactor from taking up another message.  A worker that was told to resume will find
      a pause and do nothing; at `Parked` the pause is about to begin, and no worker is about to look at the flag. */
  predicate Deaf(c: Conn, hopeless: set<MsgId>) {
    && !InBuckets(c) && c.parked <= hopeless
    && match c.at
       case Out => Halted(c)
       case Top => Halted(c)
       case Have(_) => !c.paused && Halted(c)
       case Parked(_) => c.needy == {} && !c.flow.full
       case MidResume(_) => c.flow.resumePending && c.needy == {}
       case MidRetry => c.flow.resumePending && c.needy == {}
       case _ => false
  }

  // ---------------------------------------------------------------- what can happen to a connection

  /** Whatever any thread does to a connection that takes no slot. */
  datatype Move =
    | Own(step: ReactorStep) | Admit | Deny | Dispatch | Park | TurnAway | GiveBack
    | Check(w: Thread) | Finish(m: MsgId, w: Thread) | Schedule(m: MsgId) | Drop(m: MsgId)

  predicate CanMove(c: Conn, v: Move, hopeless: set<MsgId>) {
    match v
    case Own(r) => Can(c, r)
    case Admit => c.at.Hand?
    case Deny => c.at.Hand?
    case Dispatch => c.at.Admitted?
    case Park => c.at.Starved?
    case TurnAway => c.at.Admitted? || c.at.Starved?
    case GiveBack => c.at.Refused?
    case Check(w) => w in c.needy
    case Finish(_, _) => c.flow.inFlight > 0
    case Schedule(m) => m in c.parked && m !in hopeless
    case Drop(m) => m in c.parked
  }

  function Moved(c: Conn, v: Move, hopeless: set<MsgId>): Conn
    requires CanMove(c, v, hopeless)
  {
    match v
    case Own(r) => Do(c, r)
    case Admit => PastAdmission(c)
    case Deny => OutOfCredit(c)
    case Dispatch => DispatchedOne(c)
    case Park => ParkedOne(c)
    case TurnAway => TurnedAway(c)
    case GiveBack => ReleasedSlot(c)
    case Check(w) => Checked(c, w)
    case Finish(m, w) => Finished(c, m, w)
    case Schedule(m) => Rescheduled(c, m)
    case Drop(m) => DroppedOne(c, m)
  }

  ghost predicate CanMoves(c: Conn, vs: seq<Move>, hopeless: set<MsgId>)
    decreases |vs|
  {
    vs == [] || (CanMove(c, vs[0], hopeless) && CanMoves(Moved(c, vs[0], hopeless), vs[1..], hopeless))
  }

  function MovedAll(c: Conn, vs: seq<Move>, hopeless: set<MsgId>): Conn
    requires CanMoves(c, vs, hopeless)
    decreases |vs|
  {
    if vs == [] then c else MovedAll(Moved(c, vs[0], hopeless), vs[1..], hopeless)
  }

  /** The reactor reads on, and the next message will get a slot. */
  predicate GoesOn(c: Conn) {
    c.connected && !c.paused && (c.at.Top? || c.at.Have?) && Taking(c.flow).yes
  }

  ghost predicate CanGoOn(c: Conn, hopeless: set<MsgId>) {
    exists vs :: CanMoves(c, vs, hopeless) && GoesOn(MovedAll(c, vs, hopeless))
  }

  // ---------------------------------------------------------------- deaf for good

  lemma DeafStaysDeaf(c: Conn, v: Move, hopeless: set<MsgId>)
    requires Deaf(c, hopeless) && CanMove(c, v, hopeless)
    ensures Deaf(Moved(c, v, hopeless), hopeless)
  {
    if v.Own? {
      DeafToItself(c, v.step, hopeless);
    } else {
      DeafToOthers(c, v, hopeless);
    }
  }

  lemma DeafToItself(c: Conn, r: ReactorStep, hopeless: set<MsgId>)
    requires Deaf(c, hopeless) && Can(c, r)
    ensures Deaf(Do(c, r), hopeless)
  {
  }

  lemma DeafToOthers(c: Conn, v: Move, hopeless: set<MsgId>)
    requires Deaf(c, hopeless) && CanMove(c, v, hopeless) && !v.Own?
    ensures Deaf(Moved(c, v, hopeless), hopeless)
  {
  }

  lemma OwnStepParksNothing(c: Conn, r: ReactorStep)
    requires Can(c, r)
    ensures Do(c, r).parked == c.parked
  {
    match r
    case EnterRead => case LeaveLoop => case CutMessage => case ReadBytes(_) => case ReadAgain => case CloseClient =>
    case NoSlot => case PauseReading => case ScheduleRetry => case SwapResume => case ConsumeResume =>
    case Unpause => case SwapRetry => case SkipRetry => case ConsumeRetry => case UnpauseRetry =>
  }

  lemma FinishParksNothing(c: Conn, m: MsgId, w: Thread)
    ensures Finished(c, m, w).parked == c.parked
  {
  }

  lemma {:induction false} DeafForGood(c: Conn, vs: seq<Move>, hopeless: set<MsgId>)
    requires Deaf(c, hopeless) && CanMoves(c, vs, hopeless)
    ensures Deaf(MovedAll(c, vs, hopeless), hopeless) && !GoesOn(MovedAll(c, vs, hopeless))
    decreases |vs|
  {
    if vs != [] {
      DeafStaysDeaf(c, vs[0], hopeless);
      DeafForGood(Moved(c, vs[0], hopeless), vs[1..], hopeless);
    }
  }

  // ---------------------------------------------------------------- and only these

  lemma AtOnce(c: Conn, hopeless: set<MsgId>)
    requires GoesOn(c)
    ensures CanGoOn(c, hopeless)
  {
    assert CanMoves(c, [], hopeless) && GoesOn(MovedAll(c, [], hopeless));
  }

  lemma After(c: Conn, v: Move, hopeless: set<MsgId>)
    requires CanMove(c, v, hopeless) && CanGoOn(Moved(c, v, hopeless), hopeless)
    ensures CanGoOn(c, hopeless)
  {
    var d := Moved(c, v, hopeless);
    var vs :| CanMoves(d, vs, hopeless) && GoesOn(MovedAll(d, vs, hopeless));
    var all := [v] + vs;
    assert all[1..] == vs;
    assert CanMoves(c, all, hopeless) && GoesOn(MovedAll(c, all, hopeless));
  }

  /** A resume in its bucket ends pause and owed resume; the reactor reads on, or may at the next event. */
  lemma ResumeGoesOn(c: Conn, hopeless: set<MsgId>)
    requires c.connected && c.at.Out? && (c.resumeBucket || c.resumeLocal) && FlowInv(c.flow) && c.flow.window >= 1
    ensures CanGoOn(c, hopeless)
  {
    var d := if c.resumeLocal then c else Do(c, SwapResume);
    var d1 := Do(d, ConsumeResume);
    var d2 := Do(d1, Unpause);
    if d2.at.Top? {
      TopGoesOn(d2, hopeless);
    } else {
      TopGoesOn(Do(d2, EnterRead), hopeless);
      After(d2, Own(EnterRead), hopeless);
    }
    After(d1, Own(Unpause), hopeless);
    After(d, Own(ConsumeResume), hopeless);
    if !c.resumeLocal {
      After(c, Own(SwapResume), hopeless);
    }
  }

  lemma RetryGoesOn(c: Conn, hopeless: set<MsgId>)
    requires c.connected && c.at.Out? && (c.retryBucket || c.retryLocal) && FlowInv(c.flow) && c.flow.window >= 1
    ensures CanGoOn(c, hopeless)
  {
    var d := if c.retryLocal then c else Do(c, SwapRetry);
    var d1 := Do(d, ConsumeRetry);
    TopGoesOn(Do(d1, UnpauseRetry), hopeless);
    After(d1, Own(UnpauseRetry), hopeless);
    After(d, Own(ConsumeRetry), hopeless);
    if !c.retryLocal {
      After(c, Own(SwapRetry), hopeless);
    }
  }

  /** A full window is waited for: the next message to end asks for a resume. */
  lemma TopGoesOn(c: Conn, hopeless: set<MsgId>)
    requires c.connected && c.at.Top? && !c.paused && !c.flow.resumePending && FlowInv(c.flow) && c.flow.window >= 1
    ensures CanGoOn(c, hopeless)
  {
    if c.flow.full {
      var d1 := Finished(c, 0, 0);
      var d2 := Checked(d1, 0);
      OwedResumeArrives(d2, hopeless);
      After(d1, Check(0), hopeless);
      After(c, Move.Finish(0, 0), hopeless);
    } else {
      AtOnce(c, hopeless);
    }
  }

  lemma OwedResumeArrives(c: Conn, hopeless: set<MsgId>)
    requires c.connected && c.at.Top? && !c.paused && c.flow.resumePending && c.resumeBucket
    requires FlowInv(c.flow) && c.flow.window >= 1
    ensures CanGoOn(c, hopeless)
  {
    if FrameReady(c) {
      var d1 := Do(c, CutMessage);
      var d2 := Do(d1, NoSlot);
      OwedResumeEndsWait(d2, hopeless);
      After(d1, Own(NoSlot), hopeless);
      After(c, Own(CutMessage), hopeless);
    } else {
      OwedResumeEndsWait(Do(c, ReadAgain), hopeless);
      After(c, Own(ReadAgain), hopeless);
    }
  }

  lemma OwedResumeEndsWait(c: Conn, hopeless: set<MsgId>)
    requires c.connected && c.at.Out? && !c.paused && c.flow.resumePending && c.resumeBucket
    requires FlowInv(c.flow) && c.flow.window >= 1
    ensures CanGoOn(c, hopeless)
  {
    var d := if c.resumeLocal then c else Do(c, SwapResume);
    var d1 := Do(d, ConsumeResume);
    AtOnce(Do(d1, Unpause), hopeless);
    After(d1, Own(Unpause), hopeless);
    After(d, Own(ConsumeResume), hopeless);
    if !c.resumeLocal {
      After(c, Own(SwapResume), hopeless);
    }
  }

  lemma OutGoesOn(c: Conn, hopeless: set<MsgId>)
    requires c.connected && c.at.Out? && FlowInv(c.flow) && c.flow.window >= 1 && !Deaf(c, hopeless)
    ensures CanGoOn(c, hopeless)
  {
    if c.resumeBucket || c.resumeLocal {
      ResumeGoesOn(c, hopeless);
    } else if InBuckets(c) {
      RetryGoesOn(c, hopeless);
    } else if !(c.parked <= hopeless) {
      var m :| m in c.parked && m !in hopeless;
      ResumeGoesOn(Rescheduled(c, m), hopeless);
      After(c, Schedule(m), hopeless);
    } else if c.flow.resumePending {
      var w :| w in c.needy;
      ResumeGoesOn(Checked(c, w), hopeless);
      After(c, Check(w), hopeless);
    } else {
      TopGoesOn(Do(c, EnterRead), hopeless);
      After(c, Own(EnterRead), hopeless);
    }
  }

  lemma AnyTopGoesOn(c: Conn, hopeless: set<MsgId>)
    requires c.connected && c.at.Top? && FlowInv(c.flow) && c.flow.window >= 1 && !Deaf(c, hopeless)
    ensures CanGoOn(c, hopeless)
  {
    if c.paused {
      OutGoesOn(Do(c, LeaveLoop), hopeless);
      After(c, Own(LeaveLoop), hopeless);
    } else if !c.flow.resumePending {
      TopGoesOn(c, hopeless);
    } else if FrameReady(c) {
      HaveGoesOn(Do(c, CutMessage), hopeless);
      After(c, Own(CutMessage), hopeless);
    } else {
      OutGoesOn(Do(c, ReadAgain), hopeless);
      After(c, Own(ReadAgain), hopeless);
    }
  }

  lemma HaveGoesOn(c: Conn, hopeless: set<MsgId>)
    requires c.connected && c.at.Have? && !c.paused && FlowInv(c.flow) && c.flow.window >= 1 && !Deaf(c, hopeless)
    ensures CanGoOn(c, hopeless)
  {
    if Taking(c.flow).yes {
      AtOnce(c, hopeless);
    } else {
      OutGoesOn(Do(c, NoSlot), hopeless);
      After(c, Own(NoSlot), hopeless);
    }
  }

  /** With a slot in its hands, a reactor comes to the end of the call with nothing to wait for. */
  lemma HandGoesOn(c: Conn, hopeless: set<MsgId>)
    requires ConnInv(c) && c.connected && (c.at.Hand? || c.at.Admitted?)
    ensures CanGoOn(c, hopeless)
  {
    var d := if c.at.Hand? then PastAdmission(c) else c;
    AnyTopGoesOn(DispatchedOne(d), hopeless);
    After(d, Dispatch, hopeless);
    if c.at.Hand? {
      After(c, Admit, hopeless);
    }
  }

  lemma RefusedGoesOn(c: Conn, hopeless: set<MsgId>)
    requires ConnInv(c) && c.connected && (c.at.Starved? || c.at.Refused? || c.at.PutBack?)
    ensures CanGoOn(c, hopeless)
  {
    var d := if c.at.Starved? then TurnedAway(c) else c;
    var d1 := if d.at.Refused? then ReleasedSlot(d) else d;
    RetryGoesOn(Do(d1, ScheduleRetry), hopeless);
    After(d1, Own(ScheduleRetry), hopeless);
    if d.at.Refused? {
      After(d, GiveBack, hopeless);
    }
    if c.at.Starved? {
      After(c, TurnAway, hopeless);
    }
  }

  /** Before `pause_reading` a worker may still come in time. */
  lemma ParkedGoesOn(c: Conn, hopeless: set<MsgId>)
    requires ConnInv(c) && c.connected && c.at.Parked? && !Deaf(c, hopeless)
    ensures CanGoOn(c, hopeless)
  {
    if InBuckets(c) || !(c.parked <= hopeless) {
      AnyTopGoesOn(Do(c, PauseReading), hopeless);
      After(c, Own(PauseReading), hopeless);
    } else {
      var d := if c.needy == {} then Finished(c, 0, 0) else c;
      var w :| w in d.needy;
      var d1 := Checked(d, w);
      AnyTopGoesOn(Do(d1, PauseReading), hopeless);
      After(d1, Own(PauseReading), hopeless);
      After(d, Check(w), hopeless);
      if c.needy == {} {
        After(c, Move.Finish(0, 0), hopeless);
      }
    }
  }

  lemma MidStepGoesOn(c: Conn, hopeless: set<MsgId>)
    requires ConnInv(c) && c.connected && MidStep(c.at) && !Deaf(c, hopeless)
    ensures CanGoOn(c, hopeless)
  {
    var r := if c.at.MidResume? then Unpause else UnpauseRetry;
    var d := Do(c, r);
    if d.at.Top? {
      AnyTopGoesOn(d, hopeless);
    } else {
      OutGoesOn(d, hopeless);
    }
    After(c, Own(r), hopeless);
  }

  /** Wherever its reactor stands, a connected connection is deaf if and only if, whatever the threads do, the drain
      thread just not posting any hopeless message, its reactor will never take up another message. */
  lemma DeafExactly(c: Conn, hopeless: set<MsgId>)
    requires ConnInv(c) && c.connected
    ensures Deaf(c, hopeless) <==> !CanGoOn(c, hopeless)
  {
    if Deaf(c, hopeless) {
      forall vs | CanMoves(c, vs, hopeless) ensures !GoesOn(MovedAll(c, vs, hopeless)) {
        DeafForGood(c, vs, hopeless);
      }
    } else {
      match c.at
      case Out => OutGoesOn(c, hopeless);
      case Top => AnyTopGoesOn(c, hopeless);
      case Have(_) => HaveGoesOn(c, hopeless);
      case Hand(_, _) => HandGoesOn(c, hopeless);
      case Admitted(_, _) => HandGoesOn(c, hopeless);
      case Parked(_) => ParkedGoesOn(c, hopeless);
      case MidResume(_) => MidStepGoesOn(c, hopeless);
      case MidRetry => MidStepGoesOn(c, hopeless);
      case _ => RefusedGoesOn(c, hopeless);
    }
  }

  // ---------------------------------------------------------------- what makes a connection deaf

  /** What it waits for will come from the DB side or not at all: its reading was paused for a DB message, or is about
      to be, with no worker who could still see the flag unset; or it lost a resume in the race. */
  predicate NeedsDbSide(c: Conn) {
    || (c.pausedFor.Some? && !MidStep(c.at))
    || (c.raced && c.needy == {})
    || (c.at.Parked? && c.needy == {} && !c.flow.full)
  }

  /** The causes, wherever the reactor stands. */
  lemma SilentExactly(c: Conn, hopeless: set<MsgId>)
    requires ConnInv(c) && c.connected
    ensures !CanGoOn(c, hopeless) <==> !InBuckets(c) && c.parked <= hopeless && NeedsDbSide(c)
  {
    DeafExactly(c, hopeless);
  }

  /** The drain thread drops message m.  At every point where the reactor may stand, this is the end if and only if no
      bucket has the connection, no other message of it will be posted, and the DB side is what it waits for. */
  lemma DropSilencesExactly(c: Conn, m: MsgId, hopeless: set<MsgId>)
    requires ConnInv(c) && c.connected && m in c.parked
    ensures !CanGoOn(DroppedOne(c, m), hopeless) <==>
      !InBuckets(c) && c.parked <= hopeless + {m} && NeedsDbSide(c)
  {
    DrainStepKeeps(c, m);
    SilentExactly(DroppedOne(c, m), hopeless);
    assert c.parked - {m} <= hopeless <==> c.parked <= hopeless + {m};
  }

  /** Worker w looks at the flag in the middle of a resume or a retry.  This is the end if and only if it races, is the
      last worker about to look, no bucket has the connection, and no message of it will be posted. */
  lemma RaceSilencesExactly(c: Conn, w: Thread, hopeless: set<MsgId>)
    requires ConnInv(c) && c.connected && w in c.needy && MidStep(c.at)
    ensures !CanGoOn(Checked(c, w), hopeless) <==>
      Races(c) && c.needy == {w} && !InBuckets(c) && c.parked <= hopeless
  {
    WorkerStepKeeps(c, 0, w);
    SilentExactly(Checked(c, w), hopeless);
    assert c.needy - {w} == {} <==> c.needy == {w};
  }
}
