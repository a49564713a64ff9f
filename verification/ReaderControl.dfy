/** What the reactor, the workers and the DB drain thread do to the read control of one connection: its window,
    its pause flag, its entries in the reactor's pending buckets, and the point its reactor thread has reached.
    One function per locked region or atomic access of the source. */
module ReaderControl {
  import opened Framing
  import opened Sequences
  import opened FlowWindow
  import opened Wrappers

  type MsgId = nat
  type Thread = nat

  /** Where the reactor thread is, as far as this connection is concerned; `text` is its local copy of a message. */
  datatype At =
    | Out                                // not working on it
    | Top                                // at the head of the `handle_read` loop
    | Have(text: string)                 // cut a message, no slot yet
    | Hand(m: MsgId, text: string)       // took a slot, in `on_message`
    | Admitted(m: MsgId, text: string)   // past DB admission
    | Starved(m: MsgId, text: string)    // no DB credit
    | Parked(m: MsgId)                   // put the message in the DB waiting queue, before `pause_reading`
    | Refused(m: MsgId, text: string)    // `on_message` said Full
    | PutBack(text: string)              // gave the slot back, before `schedule_divide_retry`
    | MidResume(signal: bool)            // between `consume_resume` and `exchange` in `process_pending_resume`
    | MidRetry                           // between `consume_resume` and the store in `process_divide_retry`

  /** The buckets hold the connection or not; `Local` is the reactor's swapped-out copy.  The rest is history: the
      messages that hold a slot, those in the DB waiting queue or the drain thread's hands, those that the drain thread
      dropped, the message for which `pause_reading` stopped the reading, the workers between `finish_one` and its
      `reading_paused` check, whether such a check fell between the two halves of `process_pending_resume` or
      `process_divide_retry`, the bytes that came in, and the messages that were taken up. */
  datatype Conn = Conn(
    connected: bool, buffer: string, flow: Flow, paused: bool, at: At,
    resumeBucket: bool, resumeLocal: bool, retryBucket: bool, retryLocal: bool,
    slots: set<MsgId>, parked: set<MsgId>, dropped: set<MsgId>, pausedFor: Option<MsgId>,
    needy: set<Thread>, raced: bool, received: string, taken: seq<string>)

  function NewConn(window: int): Conn {
    Conn(true, "", NewFlow(window), false, Out, false, false, false, false, {}, {}, {}, None, {}, false, "", [])
  }

  predicate FrameReady(c: Conn) {
    TakeOne(c.buffer).Taken?
  }

  // ---------------------------------------------------------------- steps that only concern the reactor

  datatype ReactorStep =
    | EnterRead | LeaveLoop | CutMessage | ReadBytes(bytes: string) | ReadAgain | CloseClient
    | NoSlot | PauseReading | ScheduleRetry
    | SwapResume | ConsumeResume | Unpause
    | SwapRetry | SkipRetry | ConsumeRetry | UnpauseRetry

  predicate Can(c: Conn, r: ReactorStep) {
    match r
    case EnterRead => c.at.Out? && c.connected
    case LeaveLoop => c.at.Top? && (!c.connected || c.paused)
    case CutMessage => c.at.Top? && c.connected && !c.paused && TakeOne(c.buffer).Taken?
    case ReadBytes(bytes) => c.at.Top? && c.connected && !c.paused && TakeOne(c.buffer).NotYet? && bytes != ""
    case ReadAgain => c.at.Top? && c.connected && !c.paused && TakeOne(c.buffer).NotYet?
    case CloseClient => c.at.Out? || c.at.Top?
    case NoSlot => c.at.Have? && !Taking(c.flow).yes
    case PauseReading => c.at.Parked?
    case ScheduleRetry => c.at.PutBack?
    case SwapResume => c.at.Out? && c.resumeBucket && !c.resumeLocal
    case ConsumeResume => c.at.Out? && c.resumeLocal
    case Unpause => c.at.MidResume?
    case SwapRetry => c.at.Out? && c.retryBucket && !c.retryLocal
    case SkipRetry => c.at.Out? && c.retryLocal && !c.connected
    case ConsumeRetry => c.at.Out? && c.retryLocal && c.connected
    case UnpauseRetry => c.at.MidRetry?
  }

  function Do(c: Conn, r: ReactorStep): Conn
    requires Can(c, r)
  {
    match r
    case EnterRead => c.(at := Top)
    case LeaveLoop => c.(at := Out)
    case CutMessage => c.(buffer := TakeOne(c.buffer).rest, at := Have(TakeOne(c.buffer).msg))
    case ReadBytes(bytes) => c.(buffer := TakeOne(c.buffer).rest + bytes, received := c.received + bytes)
    case ReadAgain => c.(buffer := TakeOne(c.buffer).rest, at := Out)
    case CloseClient => c.(connected := false, at := Out)
    case NoSlot => c.(buffer := SendPreview(c.at.text) + c.buffer, at := Out)
    case PauseReading => c.(paused := true, pausedFor := Some(c.at.m), at := Top)
    case ScheduleRetry =>
      c.(buffer := SendPreview(c.at.text) + c.buffer, retryBucket := true, paused := true, at := Out)
    case SwapResume => c.(resumeBucket := false, resumeLocal := true)
    case ConsumeResume =>
      c.(resumeLocal := false, flow := Consuming(c.flow).flow, raced := false, at := MidResume(Consuming(c.flow).yes))
    case Unpause =>
      c.(paused := false, pausedFor := None, at := if (c.at.signal || c.paused) && c.connected then Top else Out)
    case SwapRetry => c.(retryBucket := false, retryLocal := true)
    case SkipRetry => c.(retryLocal := false)
    case ConsumeRetry => c.(retryLocal := false, flow := Consuming(c.flow).flow, raced := false, at := MidRetry)
    case UnpauseRetry => c.(paused := false, pausedFor := None, at := Top)
  }

  /** At every point the reactor has just these next steps: a complete frame is cut before more is read, a message
      without a slot goes back, a pause or a closing ends the loop, and buckets are looked at between two readings. */
  lemma ReactorGoesOn(c: Conn, r: ReactorStep)
    ensures Can(c, r) <==>
      match c.at
      case Top =>
        r.CloseClient? || (if !c.connected || c.paused then r.LeaveLoop?
                           else if FrameReady(c) then r.CutMessage?
                           else r.ReadAgain? || (r.ReadBytes? && r.bytes != ""))
      case Out =>
        || r.CloseClient? || (r.EnterRead? && c.connected)
        || (r.SwapResume? && c.resumeBucket && !c.resumeLocal) || (r.ConsumeResume? && c.resumeLocal)
        || (r.SwapRetry? && c.retryBucket && !c.retryLocal)
        || (c.retryLocal && if c.connected then r.ConsumeRetry? else r.SkipRetry?)
      case Have(_) => r.NoSlot? && (c.flow.resumePending || c.flow.full || c.flow.inFlight >= c.flow.window)
      case Parked(_) => r.PauseReading?
      case PutBack(_) => r.ScheduleRetry?
      case MidResume(_) => r.Unpause?
      case MidRetry => r.UnpauseRetry?
      case _ => false
  {
  }

  /** Where it gets to: a resume that was owed, or that ends a pause, goes on reading. */
  function NextPoint(c: Conn, r: ReactorStep): At {
    match r
    case EnterRead => Top
    case CutMessage => if FrameReady(c) then Have(TakeOne(c.buffer).msg) else Top
    case ReadBytes(_) => Top
    case PauseReading => Top
    case ConsumeResume => MidResume(c.flow.resumePending)
    case Unpause => if c.connected && (c.paused || (c.at.MidResume? && c.at.signal)) then Top else Out
    case ConsumeRetry => MidRetry
    case UnpauseRetry => Top
    case _ => Out
  }

  /** The bytes that stay in the buffer: a message cut out is gone, one that finds no slot or no room is put back. */
  function NextBuffer(c: Conn, r: ReactorStep): string {
    if r.CutMessage? || r.ReadAgain? then TakeOne(c.buffer).rest
    else if r.ReadBytes? then TakeOne(c.buffer).rest + r.bytes
    else if (r.NoSlot? && c.at.Have?) || (r.ScheduleRetry? && c.at.PutBack?) then SendPreview(c.at.text) + c.buffer
    else c.buffer
  }

  /** Nothing else pauses or closes a connection, empties or fills a bucket, or consumes a resume; and no reactor step
      here touches slots or messages taken up. */
  ghost predicate Steps(c: Conn, r: ReactorStep, d: Conn) {
    && d.at == NextPoint(c, r) && d.buffer == NextBuffer(c, r)
    && d.connected == (c.connected && !r.CloseClient?)
    && d.paused == ((c.paused || r.PauseReading? || r.ScheduleRetry?) && !r.Unpause? && !r.UnpauseRetry?)
    && d.resumeBucket == (c.resumeBucket && !r.SwapResume?)
    && d.resumeLocal == ((c.resumeLocal || r.SwapResume?) && !r.ConsumeResume?)
    && d.retryBucket == ((c.retryBucket || r.ScheduleRetry?) && !r.SwapRetry?)
    && d.retryLocal == ((c.retryLocal || r.SwapRetry?) && !r.SkipRetry? && !r.ConsumeRetry?)
    && d.flow == (if r.ConsumeResume? || r.ConsumeRetry? then c.flow.(resumePending := false) else c.flow)
    && d.received == c.received + (if r.ReadBytes? then r.bytes else "") && d.taken == c.taken && d.slots == c.slots
  }

  lemma LoopSteps(c: Conn, r: ReactorStep)
    requires Can(c, r)
    requires r.EnterRead? || r.LeaveLoop? || r.CutMessage? || r.ReadBytes? || r.ReadAgain? || r.CloseClient?
    ensures Steps(c, r, Do(c, r))
  {
  }

  lemma OfferSteps(c: Conn, r: ReactorStep)
    requires Can(c, r) && (r.NoSlot? || r.PauseReading? || r.ScheduleRetry?)
    ensures Steps(c, r, Do(c, r))
  {
  }

  lemma ReactorSteps(c: Conn, r: ReactorStep)
    requires Can(c, r)
    ensures Steps(c, r, Do(c, r))
  {
    if r.EnterRead? || r.LeaveLoop? || r.CutMessage? || r.ReadBytes? || r.ReadAgain? || r.CloseClient? {
      LoopSteps(c, r);
    } else if r.NoSlot? || r.PauseReading? || r.ScheduleRetry? {
      OfferSteps(c, r);
    } else {
      BucketSteps(c, r);
    }
  }

  lemma BucketSteps(c: Conn, r: ReactorStep)
    requires Can(c, r)
    requires r.SwapResume? || r.ConsumeResume? || r.Unpause? || r.SwapRetry? || r.SkipRetry? || r.ConsumeRetry?
             || r.UnpauseRetry?
    ensures Steps(c, r, Do(c, r))
  {
  }

  // ---------------------------------------------------------------- steps that move a message

  function TookSlot(c: Conn, m: MsgId): Conn
    requires c.at.Have?
  {
    c.(flow := Taking(c.flow).flow, slots := c.slots + {m}, at := Hand(m, c.at.text))
  }

  function PastAdmission(c: Conn): Conn
    requires c.at.Hand?
  {
    c.(at := Admitted(c.at.m, c.at.text))
  }

  function OutOfCredit(c: Conn): Conn
    requires c.at.Hand?
  {
    c.(at := Starved(c.at.m, c.at.text))
  }

  /** `on_message` answers Full. */
  function TurnedAway(c: Conn): Conn
    requires c.at.Admitted? || c.at.Starved?
  {
    c.(at := Refused(c.at.m, c.at.text))
  }

  function ParkedOne(c: Conn): Conn
    requires c.at.Starved?
  {
    c.(parked := c.parked + {c.at.m}, taken := c.taken + [c.at.text], at := Parked(c.at.m))
  }

  function DispatchedOne(c: Conn): Conn
    requires c.at.Admitted?
  {
    c.(taken := c.taken + [c.at.text], at := Top)
  }

  function ReleasedSlot(c: Conn): Conn
    requires c.at.Refused?
  {
    c.(flow := Releasing(c.flow), slots := c.slots - {c.at.m}, at := PutBack(c.at.text))
  }

  /** The drain thread has posted the message and calls `schedule_resume`. */
  function Rescheduled(c: Conn, m: MsgId): Conn {
    c.(parked := c.parked - {m}, resumeBucket := true)
  }

  /** The parse pool is closed: the drain thread drops the message, and schedules nothing. */
  function DroppedOne(c: Conn, m: MsgId): Conn {
    c.(parked := c.parked - {m}, dropped := c.dropped + {m})
  }

  /** Worker w ends message m: `finish_one`. */
  function Finished(c: Conn, m: MsgId, w: Thread): Conn {
    c.(flow := Finishing(c.flow).flow, slots := c.slots - {m},
       needy := if Finishing(c.flow).yes then c.needy + {w} else c.needy)
  }

  predicate MidStep(at: At) {
    at.MidResume? || at.MidRetry?
  }

  /** A check of a worker that was told to resume falls between the two halves of a resume or a retry. */
  predicate Races(c: Conn) {
    c.paused && MidStep(c.at) && c.flow.resumePending
  }

  /** Worker w was told to resume: it schedules that unless reading is paused.  Its load of the flag and its push into
      the bucket are one step here; between the two, the push is a resume that is still to come. */
  function Checked(c: Conn, w: Thread): Conn {
    var d := c.(needy := c.needy - {w});
    if !c.paused then d.(resumeBucket := true) else if Races(c) then d.(raced := true) else d
  }

  // ---------------------------------------------------------------- wake-up sources

  predicate InBuckets(c: Conn) {
    c.resumeBucket || c.resumeLocal || c.retryBucket || c.retryLocal
  }

  predicate Reading(at: At) {
    at.Have? || at.Hand? || at.Admitted? || at.Starved? || at.Parked? || at.Refused? || at.PutBack?
  }

  /** The drain thread has, had, or has already served message m. */
  predicate WithDbSide(c: Conn, m: MsgId) {
    m in c.parked || m in c.dropped || c.resumeBucket || c.resumeLocal
  }

  /** Reading stops only for a reason. */
  predicate Orderly(c: Conn) {
    && (c.raced ==> c.flow.resumePending && (c.at.Out? || c.at.Top? || c.at.Have? || MidStep(c.at)))
    && (c.at.PutBack? ==> !c.flow.full)
    && (Reading(c.at) ==> !c.paused)
    && (c.pausedFor.Some? ==> c.paused)
    && (c.at.Out? && FrameReady(c) ==> c.flow.full || c.flow.resumePending || c.paused)
    && (c.at.MidResume? && FrameReady(c) ==> c.flow.full || c.flow.resumePending || c.paused || c.at.signal)
  }

  /** And every reason has someone who will remove it: a resume that is owed has a worker about to check, a place in a
      bucket or a pause that it waits behind, unless it was lost in the race; a pause has a retry, or the message that
      it began with. */
  predicate Covered(c: Conn) {
    && (c.flow.resumePending ==>
          c.needy != {} || c.raced || c.resumeBucket || c.resumeLocal || (c.paused && !MidStep(c.at)))
    && (c.paused && !MidStep(c.at) && c.pausedFor.None? ==> c.retryBucket || c.retryLocal)
    && (c.pausedFor.Some? && !c.at.MidResume? ==> WithDbSide(c, c.pausedFor.value))
    && (c.at.Parked? ==> WithDbSide(c, c.at.m))
  }

  ghost predicate ConnInv(c: Conn) {
    FlowInv(c.flow) && c.flow.window >= 1 && (c.connected ==> Orderly(c) && Covered(c))
  }

  lemma LoopStepKeeps(c: Conn, r: ReactorStep)
    requires ConnInv(c) && Can(c, r)
    requires r.EnterRead? || r.LeaveLoop? || r.CutMessage? || r.ReadBytes? || r.ReadAgain? || r.CloseClient?
    ensures ConnInv(Do(c, r))
  {
    if r.ReadAgain? {
      LeftoverIsShort(c.buffer);
    }
  }

  lemma OfferStepKeeps(c: Conn, r: ReactorStep)
    requires ConnInv(c) && Can(c, r) && (r.NoSlot? || r.PauseReading? || r.ScheduleRetry?)
    ensures ConnInv(Do(c, r))
  {
  }

  lemma BucketStepKeeps(c: Conn, r: ReactorStep)
    requires ConnInv(c) && Can(c, r)
    requires r.SwapResume? || r.ConsumeResume? || r.Unpause? || r.SwapRetry? || r.SkipRetry? || r.ConsumeRetry?
             || r.UnpauseRetry?
    ensures ConnInv(Do(c, r))
  {
  }

  lemma ReactorStepKeeps(c: Conn, r: ReactorStep)
    requires ConnInv(c) && Can(c, r)
    ensures ConnInv(Do(c, r))
  {
    if r.EnterRead? || r.LeaveLoop? || r.CutMessage? || r.ReadBytes? || r.ReadAgain? || r.CloseClient? {
      LoopStepKeeps(c, r);
    } else if r.NoSlot? || r.PauseReading? || r.ScheduleRetry? {
      OfferStepKeeps(c, r);
    } else {
      BucketStepKeeps(c, r);
    }
  }

  lemma SlotStepKeeps(c: Conn, m: MsgId)
    requires ConnInv(c)
    ensures c.at.Have? && Taking(c.flow).yes ==> ConnInv(TookSlot(c, m))
    ensures c.at.Refused? && c.flow.inFlight > 0 ==> ConnInv(ReleasedSlot(c))
  {
  }

  lemma HandOverKeeps(c: Conn)
    requires ConnInv(c)
    ensures c.at.Starved? ==> ConnInv(ParkedOne(c))
    ensures c.at.Admitted? ==> ConnInv(DispatchedOne(c))
  {
  }

  lemma DrainStepKeeps(c: Conn, m: MsgId)
    requires ConnInv(c)
    ensures ConnInv(Rescheduled(c, m)) && ConnInv(DroppedOne(c, m))
  {
  }

  lemma WorkerStepKeeps(c: Conn, m: MsgId, w: Thread)
    requires ConnInv(c)
    ensures c.flow.inFlight > 0 ==> ConnInv(Finished(c, m, w))
    ensures ConnInv(Checked(c, w))
  {
    if c.flow.inFlight > 0 {
      FinishKeeps(c, m, w);
    }
    CheckKeeps(c, w);
  }

  lemma FinishKeeps(c: Conn, m: MsgId, w: Thread)
    requires ConnInv(c) && c.flow.inFlight > 0
    ensures ConnInv(Finished(c, m, w))
  {
  }

  lemma CheckKeeps(c: Conn, w: Thread)
    requires ConnInv(c)
    ensures ConnInv(Checked(c, w))
  {
  }

  // ---------------------------------------------------------------- the byte stream

  /** The message the reactor holds and has neither taken up nor put back. */
  function Held(at: At): seq<string> {
    if Reading(at) && !at.Parked? then [at.text] else []
  }

  /** Messages taken up, the one in hand, then what the buffer decodes to, are what the bytes received decode to; a
      closed connection took up a prefix. */
  ghost predicate Lossless(c: Conn) {
    var all, ahead := Decode(c.received), Decode(c.buffer);
    && AllFit(Held(c.at))
    && if c.connected then all == Decoded(c.taken + Held(c.at) + ahead.msgs, ahead.rest)
       else c.taken <= all.msgs && (c.at.Out? || c.at.MidResume?)
  }

  lemma CutKeepsStream(c: Conn)
    requires Lossless(c) && Can(c, CutMessage)
    ensures Lossless(Do(c, CutMessage))
  {
    var t := TakeOne(c.buffer);
    AppendAssociates(c.taken, [t.msg], Decode(t.rest).msgs);
    EmptyIsNeutral(c.taken);
  }

  lemma ReadKeepsStream(c: Conn, bytes: string)
    requires Lossless(c) && Can(c, ReadBytes(bytes))
    ensures Lossless(Do(c, ReadBytes(bytes)))
  {
    EmptyIsNeutral(c.taken);
    DecodeAppend(c.received, bytes);
  }

  lemma PutBackKeepsStream(c: Conn)
    requires Lossless(c) && c.connected && (c.at.Have? || c.at.PutBack?)
    ensures var b := SendPreview(c.at.text) + c.buffer;
      Decode(c.received) == Decoded(c.taken + Decode(b).msgs, Decode(b).rest)
  {
    assert Held(c.at)[0] == c.at.text;
    RoundTrip(c.at.text, c.buffer);
    AppendAssociates(c.taken, [c.at.text], Decode(c.buffer).msgs);
  }

  /** No reactor step loses, repeats or reorders a message. */
  lemma StreamStep(c: Conn, r: ReactorStep)
    requires Lossless(c) && Can(c, r)
    ensures Lossless(Do(c, r))
  {
    match r
    case CutMessage => CutKeepsStream(c);
    case ReadBytes(bytes) => ReadKeepsStream(c, bytes);
    case ReadAgain =>
      LeftoverIsShort(c.buffer);
      EmptyIsNeutral(c.taken);
    case NoSlot => if c.connected { PutBackKeepsStream(c); EmptyIsNeutral(c.taken); }
    case ScheduleRetry => if c.connected { PutBackKeepsStream(c); EmptyIsNeutral(c.taken); }
    case _ => StreamStays(c, r);
  }

  lemma StreamFrame(c: Conn, r: ReactorStep)
    requires Can(c, r)
    requires !r.CutMessage? && !r.ReadBytes? && !r.ReadAgain? && !r.NoSlot? && !r.ScheduleRetry?
    ensures var d := Do(c, r);
      && d.received == c.received && d.taken == c.taken && d.buffer == c.buffer && Held(d.at) == [] == Held(c.at)
      && (d.connected == c.connected || r.CloseClient?)
      && (!c.connected && (c.at.Out? || c.at.MidResume?) ==> d.at.Out? || d.at.MidResume?)
  {
    if r.EnterRead? || r.LeaveLoop? || r.CloseClient? || r.PauseReading? {
      StreamFrameInLoop(c, r);
    } else {
      StreamFrameAtBuckets(c, r);
    }
  }

  lemma StreamFrameInLoop(c: Conn, r: ReactorStep)
    requires Can(c, r) && (r.EnterRead? || r.LeaveLoop? || r.CloseClient? || r.PauseReading?)
    ensures var d := Do(c, r);
      && d.received == c.received && d.taken == c.taken && d.buffer == c.buffer && Held(d.at) == [] == Held(c.at)
      && (d.connected == c.connected || r.CloseClient?)
      && (!c.connected && c.at.Out? ==> d.at.Out?)
  {
  }

  lemma StreamFrameAtBuckets(c: Conn, r: ReactorStep)
    requires Can(c, r)
    requires r.SwapResume? || r.ConsumeResume? || r.Unpause? || r.SwapRetry? || r.SkipRetry? || r.ConsumeRetry?
             || r.UnpauseRetry?
    ensures var d := Do(c, r);
      && d.received == c.received && d.taken == c.taken && d.buffer == c.buffer && Held(d.at) == [] == Held(c.at)
      && d.connected == c.connected
      && (!c.connected && (c.at.Out? || c.at.MidResume?) ==> d.at.Out? || d.at.MidResume?)
  {
  }

  lemma StreamStays(c: Conn, r: ReactorStep)
    requires Lossless(c) && Can(c, r)
    requires !r.CutMessage? && !r.ReadBytes? && !r.ReadAgain? && !r.NoSlot? && !r.ScheduleRetry?
    ensures Lossless(Do(c, r))
  {
    StreamFrame(c, r);
    EmptyIsNeutral(c.taken);
  }

  /** Nor does a handover: what was in hand is taken up. */
  lemma HandOverKeepsStream(c: Conn)
    requires Lossless(c)
    ensures c.at.Starved? ==> Lossless(ParkedOne(c))
    ensures c.at.Admitted? ==> Lossless(DispatchedOne(c))
  {
    EmptyIsNeutral(c.taken + Held(c.at));
  }

}
