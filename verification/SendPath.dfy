/** The send side of a connection: `enqueue_send`, the batching `try_send` of the reactor, and the
    one-frame-at-a-time `try_send` of the older event loop as its simple reference form. */
module SendPath {
  import opened Framing
  import opened Sequences

  const MAX_SEND_QUEUE_BYTES: nat := 4 * 1024 * 1024
  const SEND_BATCH_BYTES: nat := 64 * 1024

  /** What the kernel answers to one `write`.  A write never takes more than it is offered;
      `Wrote(0)` stands for a blocked write. */
  datatype WriteOutcome = Wrote(n: nat) | WouldBlock | Failed

  /** One connection's sending side.  `accepted`, `written` and `broken` are its history: the messages
      `enqueue_send` said yes to, the bytes the kernel took, and whether a write failed. */
  datatype Sender = Sender(
    connected: bool, queue: seq<string>, queuedBytes: int,
    accepted: seq<string>, written: string, broken: bool)

  datatype SendEvent = Enqueue(msg: string) | TrySend(answers: seq<WriteOutcome>) | CloseClient

  const FRESH_SENDER := Sender(true, [], 0, [], "", false)

  // ---------------------------------------------------------------- specification of one step

  predicate Admits(s: Sender, msg: string) {
    s.connected && s.queuedBytes + |SendPreview(msg)| <= MAX_SEND_QUEUE_BYTES
  }

  function Enqueued(s: Sender, msg: string): Sender {
    if !Admits(s, msg) then s
    else s.(queue := s.queue + [SendPreview(msg)],
            queuedBytes := s.queuedBytes + |SendPreview(msg)|,
            accepted := s.accepted + [msg])
  }

  /** How the bytes of a queue are dealt with by one `try_send`. */
  datatype Flushed = Flushed(queue: seq<string>, sent: string, failed: bool)

  datatype Batch = Batch(bytes: string, left: seq<string>)

  /** Append whole frames while the batch stays within its limit; the first frame always goes in. */
  function FillBatch(batch: string, queue: seq<string>): (r: Batch)
    ensures r.bytes + Flatten(r.left) == batch + Flatten(queue)
    ensures |r.left| <= |queue|
    decreases |queue|
  {
    if queue == [] || (batch != "" && |batch| + |queue[0]| > SEND_BATCH_BYTES) then Batch(batch, queue)
    else
      assert (batch + queue[0]) + Flatten(queue[1..]) == batch + Flatten(queue);
      FillBatch(batch + queue[0], queue[1..])
  }

  function TakeBatch(queue: seq<string>): (r: Batch)
    requires queue != []
    ensures r.bytes + Flatten(r.left) == Flatten(queue)
    ensures |r.left| < |queue|
  {
    assert "" + queue[0] == queue[0];
    FillBatch(queue[0], queue[1..])
  }

  /** The batching sender.  Once `answers` runs out the kernel is taken to block. */
  function Flush(queue: seq<string>, answers: seq<WriteOutcome>): Flushed
    decreases |queue|
  {
    if queue == [] then Flushed(queue, "", false)
    else
      var b := TakeBatch(queue);
      if answers == [] || answers[0].WouldBlock? || answers[0] == Wrote(0) then
        Flushed([b.bytes] + b.left, "", false)
      else if answers[0].Failed? then Flushed(b.left, "", true)
      else if answers[0].n < |b.bytes| then
        Flushed([b.bytes[answers[0].n..]] + b.left, b.bytes[..answers[0].n], false)
      else
        var r := Flush(b.left, answers[1..]);
        Flushed(r.queue, b.bytes + r.sent, r.failed)
  }

  /** The reference sender: one `write` for each queued frame. */
  function FlushOneByOne(queue: seq<string>, answers: seq<WriteOutcome>): Flushed
    decreases |queue|
  {
    if queue == [] then Flushed(queue, "", false)
    else if answers == [] || answers[0].WouldBlock? || answers[0] == Wrote(0) then
      Flushed(queue, "", false)
    else if answers[0].Failed? then Flushed(queue, "", true)
    else if answers[0].n < |queue[0]| then
      Flushed([queue[0][answers[0].n..]] + queue[1..], queue[0][..answers[0].n], false)
    else
      var r := FlushOneByOne(queue[1..], answers[1..]);
      Flushed(r.queue, queue[0] + r.sent, r.failed)
  }

  /** After a failed write the event thread closes the connection before it sends on it again. */
  function TrySendStep(s: Sender, answers: seq<WriteOutcome>): Sender {
    if !s.connected || s.broken then s
    else
      var f := Flush(s.queue, answers);
      s.(queue := f.queue, queuedBytes := |Flatten(f.queue)|,
         written := s.written + f.sent, broken := f.failed)
  }

  function Step(s: Sender, e: SendEvent): Sender {
    match e
    case Enqueue(msg) => Enqueued(s, msg)
    case TrySend(answers) => TrySendStep(s, answers)
    case CloseClient => s.(connected := false)
  }

  function Run(s: Sender, events: seq<SendEvent>): Sender
    decreases |events|
  {
    if events == [] then s else Run(Step(s, events[0]), events[1..])
  }

  // ---------------------------------------------------------------- the code, on its own state

  ghost predicate NonEmptyFrames(queue: seq<string>) {
    forall i :: 0 <= i < |queue| ==> queue[i] != ""
  }

  class Connection {
    var connected: bool
    var sendQueue: seq<string>
    var queuedSendBytes: int
    ghost var accepted: seq<string>
    ghost var written: string
    ghost var broken: bool

    ghost function View(): Sender
      reads this
    {
      Sender(connected, sendQueue, queuedSendBytes, accepted, written, broken)
    }

    ghost predicate Valid()
      reads this
    {
      Inv(View())
    }

    constructor ()
      ensures View() == FRESH_SENDER && Valid()
    {
      connected, sendQueue, queuedSendBytes := true, [], 0;
      accepted, written, broken := [], "", false;
    }

    method EnqueueSend(msg: string) returns (ok: bool)
      modifies this
      ensures View() == Enqueued(old(View()), msg)
      ensures ok <==> old(connected) && old(queuedSendBytes) + |SendPreview(msg)| <= MAX_SEND_QUEUE_BYTES
      ensures sendQueue == old(sendQueue) + (if ok then [SendPreview(msg)] else [])
      ensures queuedSendBytes == old(queuedSendBytes) + (if ok then |SendPreview(msg)| else 0)
      ensures accepted == old(accepted) + (if ok then [msg] else [])
      ensures connected == old(connected) && written == old(written) && broken == old(broken)
    {
      if !connected {
        return false;
      }
      var frame := EncodeFrame(msg);
      if queuedSendBytes + |frame| > MAX_SEND_QUEUE_BYTES {
        return false;
      }
      queuedSendBytes := queuedSendBytes + |frame|;
      sendQueue := sendQueue + [frame];
      accepted := accepted + [msg];
      ok := true;
    }

    /** The inner loop of `try_send`: move frames from the queue into one batch. */
    method GatherBatch() returns (batch: string)
      requires sendQueue != [] && NonEmptyFrames(sendQueue) && queuedSendBytes == |Flatten(sendQueue)|
      modifies this`sendQueue, this`queuedSendBytes
      ensures Batch(batch, sendQueue) == TakeBatch(old(sendQueue))
      ensures exists n: nat :: IsBatch(old(sendQueue), n, batch) && sendQueue == old(sendQueue)[n..]
      ensures batch != "" && NonEmptyFrames(sendQueue)
      ensures queuedSendBytes == |Flatten(sendQueue)|
      ensures |batch| + queuedSendBytes == old(queuedSendBytes)
    {
      ghost var _ := TakesABatch(sendQueue);
      batch := "";
      while |sendQueue| > 0
        invariant NonEmptyFrames(sendQueue)
        invariant batch == "" ==> sendQueue == old(sendQueue)
        invariant batch != "" ==> FillBatch(batch, sendQueue) == TakeBatch(old(sendQueue))
        invariant queuedSendBytes == |Flatten(sendQueue)|
        invariant |batch| + queuedSendBytes == old(queuedSendBytes)
        decreases |sendQueue|
      {
        var front := sendQueue[0];
        if batch != "" && |batch| + |front| > SEND_BATCH_BYTES {
          break;
        }
        assert "" + front == front;
        batch := batch + front;
        queuedSendBytes := queuedSendBytes - |front|;
        sendQueue := sendQueue[1..];
      }
    }

    /** Batch and write until the queue is empty, the kernel blocks or a write fails; `answers` are the results
        of the writes, in order.  The loop ends because a full write shrinks the number of queued bytes. */
    method WriteBatches(answers: seq<WriteOutcome>) returns (failed: bool, ghost sent: string)
      requires NonEmptyFrames(sendQueue) && queuedSendBytes == |Flatten(sendQueue)|
      modifies this`sendQueue, this`queuedSendBytes
      ensures Flushed(sendQueue, sent, failed) == Flush(old(sendQueue), answers)
      ensures queuedSendBytes == |Flatten(sendQueue)|
    {
      ghost var target := Flush(sendQueue, answers);
      var k := 0;
      sent := "";
      while |sendQueue| > 0
        invariant 0 <= k <= |answers|
        invariant NonEmptyFrames(sendQueue) && queuedSendBytes == |Flatten(sendQueue)|
        invariant var r := Flush(sendQueue, answers[k..]); target == Flushed(r.queue, sent + r.sent, r.failed)
        decreases queuedSendBytes
      {
        ghost var r := Flush(sendQueue, answers[k..]);
        var batch := GatherBatch();
        if k < |answers| && answers[k].Failed? {
          assert r == Flushed(sendQueue, "", true);
          return true, sent + "";
        }
        if k == |answers| || answers[k].WouldBlock? || answers[k].n == 0 {
          assert r == Flushed([batch] + sendQueue, "", false);
          Requeue(batch);
          return false, sent + "";
        }
        var n := answers[k].n;
        if n < |batch| {
          assert r == Flushed([batch[n..]] + sendQueue, batch[..n], false);
          Requeue(batch[n..]);
          return false, sent + batch[..n];
        }
        assert answers[k..][1..] == answers[k + 1..];
        ghost var later := Flush(sendQueue, answers[k + 1..]);
        assert r == Flushed(later.queue, batch + later.sent, later.failed);
        assert sent + (batch + later.sent) == (sent + batch) + later.sent;
        sent := sent + batch;
        k := k + 1;
      }
      assert sent + "" == sent;
      failed := false;
    }

    /** Put what the kernel did not take back at the front. */
    method Requeue(rest: string)
      requires queuedSendBytes == |Flatten(sendQueue)|
      modifies this`sendQueue, this`queuedSendBytes
      ensures sendQueue == [rest] + old(sendQueue) && queuedSendBytes == |Flatten(sendQueue)|
    {
      queuedSendBytes := queuedSendBytes + |rest|;
      sendQueue := [rest] + sendQueue;
    }

    /** The locked part of `try_send`; the event thread closes the connection when it reports an error. */
    method TrySend(answers: seq<WriteOutcome>) returns (writeError: bool)
      requires Valid() && !broken
      modifies this
      ensures Valid() && View() == TrySendStep(old(View()), answers)
      ensures writeError == broken
      ensures connected == old(connected) && accepted == old(accepted)
      ensures !connected ==> !writeError && sendQueue == old(sendQueue) && written == old(written)
      ensures connected ==> exists offers, m, sent :: (
                && written == old(written) + sent
                && Sends(old(sendQueue), answers, offers, m, Flushed(sendQueue, sent, writeError)))
    {
      SendKeepsInv(View(), SendEvent.TrySend(answers));
      ghost var offers, m := SendsAllItCan(sendQueue, answers);
      if !connected {
        return false;
      }
      ghost var sent;
      writeError, sent := WriteBatches(answers);
      written := written + sent;
      broken := writeError;
      assert Sends(old(sendQueue), answers, offers, m, Flushed(sendQueue, sent, writeError));
    }

    method CloseClient()
      modifies this`connected
      ensures View() == old(View()).(connected := false)
    {
      connected := false;
    }
  }

  // ---------------------------------------------------------------- how much one `try_send` sends

  /** The first n frames of the queue are what one `write` is offered: as many whole frames as the limit allows,
      and at least one. */
  ghost predicate IsBatch(queue: seq<string>, n: nat, batch: string) {
    && 1 <= n <= |queue| && batch == Flatten(queue[..n])
    && (n == 1 || |batch| <= SEND_BATCH_BYTES)
    && (n < |queue| ==> |batch| + |queue[n]| > SEND_BATCH_BYTES)
  }

  /** The queue's first m frames, cut into such batches. */
  ghost predicate Batches(queue: seq<string>, offers: seq<string>, m: nat)
    decreases |offers|
  {
    if offers == [] then m == 0
    else exists n: nat :: IsBatch(queue, n, offers[0]) && n <= m && Batches(queue[n..], offers[1..], m - n)
  }

  /** How many bytes the k-th `write` took. */
  function Taken(answers: seq<WriteOutcome>, k: nat): nat {
    if k < |answers| && answers[k].Wrote? then answers[k].n else 0
  }

  /** One `try_send` by what it offers to the kernel: every `write` but the last took its whole batch, and the last
      one failed, or emptied the queue, or took only part of its batch (or nothing, or was never answered). */
  ghost predicate Sends(queue: seq<string>, answers: seq<WriteOutcome>, offers: seq<string>, m: nat, f: Flushed) {
    && Batches(queue, offers, m) && |offers| <= m <= |queue|
    && TakenWhole(offers, answers) && NonEmptyFrames(offers)
    && (offers == [] ==> queue == [] && f == Flushed([], "", false))
    && (offers != [] ==> f == AfterLast(queue, answers, offers, m))
  }

  ghost predicate TakenWhole(offers: seq<string>, answers: seq<WriteOutcome>) {
    forall k :: 0 <= k < |offers| - 1 ==> Taken(answers, k) >= |offers[k]|
  }

  function AfterLast(queue: seq<string>, answers: seq<WriteOutcome>, offers: seq<string>, m: nat): Flushed
    requires offers != [] && m <= |queue|
  {
    var k := |offers| - 1;
    var before, last, n := Flatten(offers[..k]), offers[k], Taken(answers, k);
    if k < |answers| && answers[k].Failed? then Flushed(queue[m..], before, true)
    else if n < |last| then Flushed([last[n..]] + queue[m..], before + last[..n], false)
    else Flushed([], Flatten(queue), false)
  }

  lemma TakesABatch(queue: seq<string>) returns (n: nat)
    requires queue != [] && NonEmptyFrames(queue)
    ensures IsBatch(queue, n, TakeBatch(queue).bytes) && TakeBatch(queue).left == queue[n..]
    ensures TakeBatch(queue).bytes != ""
  {
    var k := BatchIsWholeFrames(queue[0], queue[1..]);
    BatchIsMaximal(queue[0], queue[1..]);
    BatchKeepsFrames(queue[0], queue[1..]);
    n := 1 + k;
    assert queue[..n] == [queue[0]] + queue[1..][..k];
    FlattenFirst(queue[0], queue[1..][..k]);
    assert k == 0 ==> TakeBatch(queue).left == queue[1..];
    if k != 0 {
      assert queue[..n][1..][0] != "";
      assert TakeBatch(queue).bytes != queue[0];
    }
  }

  /** `try_send` sends all it can: it goes on until the queue is empty, a write fails, or one is blocked or short.
      `offers` are the batches it hands to `write`, and m is how many frames they hold. */
  lemma {:induction false} SendsAllItCan(queue: seq<string>, answers: seq<WriteOutcome>)
    returns (offers: seq<string>, m: nat)
    requires NonEmptyFrames(queue)
    ensures Sends(queue, answers, offers, m, Flush(queue, answers))
    decreases |queue|
  {
    if queue == [] {
      return [], 0;
    }
    var b := TakeBatch(queue);
    var n := TakesABatch(queue);
    if Taken(answers, 0) < |b.bytes| {
      offers, m := [b.bytes], n;
      LastOffer(queue, answers, b, n);
    } else {
      var more, i := SendsAllItCan(b.left, answers[1..]);
      offers, m := [b.bytes] + more, n + i;
      OneMoreOffer(queue, answers, b.bytes, n, more, i, Flush(b.left, answers[1..]));
      FlushGoesOn(queue, answers);
    }
  }

  /** A batch not taken whole is the last. */
  lemma LastOffer(queue: seq<string>, answers: seq<WriteOutcome>, b: Batch, n: nat)
    requires queue != [] && b == TakeBatch(queue) && IsBatch(queue, n, b.bytes) && b.left == queue[n..]
    requires Taken(answers, 0) < |b.bytes|
    ensures Sends(queue, answers, [b.bytes], n, Flush(queue, answers))
  {
    var offers := [b.bytes];
    assert Batches(queue[n..], offers[1..], 0);
    assert offers[..0] == [];
    EmptyIsNeutral(b.bytes[..Taken(answers, 0)]);
    EmptyIsNeutral(b.bytes);
  }

  /** A batch taken whole comes before the batches of the rest. */
  lemma OffersFollow(queue: seq<string>, answers: seq<WriteOutcome>, batch: string, n: nat, more: seq<string>, i: nat)
    requires n <= |queue| && Taken(answers, 0) >= |batch| > 0 && TakenWhole(more, answers[1..])
    requires IsBatch(queue, n, batch) && Batches(queue[n..], more, i) && |more| <= i <= |queue[n..]|
    ensures var offers := [batch] + more;
            && Batches(queue, offers, n + i) && |offers| <= n + i <= |queue|
            && TakenWhole(offers, answers)
  {
    var offers := [batch] + more;
    assert offers[1..] == more;
    forall k | 0 <= k < |offers| - 1
      ensures Taken(answers, k) >= |offers[k]|
    {
      if k > 0 {
        assert Taken(answers, k) == Taken(answers[1..], k - 1) && offers[k] == more[k - 1];
      }
    }
  }

  /** The same for how it ends. */
  lemma EndFollows(queue: seq<string>, answers: seq<WriteOutcome>, batch: string, n: nat, more: seq<string>, i: nat,
                   r: Flushed)
    requires n + i <= |queue| && batch == Flatten(queue[..n]) && Taken(answers, 0) >= |batch| > 0
    requires if more == [] then n == |queue| && r == Flushed([], "", false)
             else r == AfterLast(queue[n..], answers[1..], more, i)
    ensures Flushed(r.queue, batch + r.sent, r.failed) == AfterLast(queue, answers, [batch] + more, n + i)
  {
    var offers, k := [batch] + more, |more|;
    if more == [] {
      assert queue[..n] == queue;
    } else {
      assert offers[..k] == [batch] + more[..k - 1];
      FlattenFirst(batch, more[..k - 1]);
      assert queue[n..][i..] == queue[n + i..];
      var t := Taken(answers, k);
      if t < |more[k - 1]| {
        AppendAssociates(batch, Flatten(more[..k - 1]), more[k - 1][..t]);
      }
      assert queue == queue[..n] + queue[n..];
      FlattenAppend(queue[..n], queue[n..]);
    }
  }

  lemma FlushGoesOn(queue: seq<string>, answers: seq<WriteOutcome>)
    requires queue != [] && Taken(answers, 0) >= |TakeBatch(queue).bytes| > 0
    ensures var b := TakeBatch(queue);
            var r := Flush(b.left, answers[1..]);
            Flush(queue, answers) == Flushed(r.queue, b.bytes + r.sent, r.failed)
  {
  }

  /** What is left after a batch taken whole is sent as it would be alone. */
  lemma OneMoreOffer(queue: seq<string>, answers: seq<WriteOutcome>, batch: string, n: nat, more: seq<string>, i: nat,
                     r: Flushed)
    requires IsBatch(queue, n, batch) && Taken(answers, 0) >= |batch| > 0
    requires Sends(queue[n..], answers[1..], more, i, r)
    ensures Sends(queue, answers, [batch] + more, n + i, Flushed(r.queue, batch + r.sent, r.failed))
  {
    OffersFollow(queue, answers, batch, n, more, i);
    EndFollows(queue, answers, batch, n, more, i, r);
  }

  /** If every `write` takes its whole batch, the queue ends empty and all of it is on the wire, with no more writes
      than there were frames; and if a queue is left without an error, the answers ran out or the last `write` used
      was blocked or short. */
  lemma AllOfItGoesOut(queue: seq<string>, answers: seq<WriteOutcome>) returns (offers: seq<string>, m: nat)
    requires NonEmptyFrames(queue)
    ensures Sends(queue, answers, offers, m, Flush(queue, answers)) && |offers| <= |queue|
    ensures |answers| >= |queue| && (forall k :: 0 <= k < |offers| ==> Taken(answers, k) >= |offers[k]|)
            ==> Flush(queue, answers) == Flushed([], Flatten(queue), false)
    ensures var f := Flush(queue, answers);
            !f.failed && f.queue != [] ==>
              && offers != []
              && (|answers| < |offers| || Taken(answers, |offers| - 1) < |offers[|offers| - 1]|)
  {
    offers, m := SendsAllItCan(queue, answers);
  }

  // ---------------------------------------------------------------- what every run keeps

  /** The byte count is exact and bounded, and no byte is lost, doubled or reordered. */
  ghost predicate Inv(s: Sender) {
    && NonEmptyFrames(s.queue)
    && s.queuedBytes == |Flatten(s.queue)| <= MAX_SEND_QUEUE_BYTES
    && (!s.broken ==> s.written + Flatten(s.queue) == Frames(s.accepted))
    && s.written <= Frames(s.accepted)
  }

  ghost predicate Conserves(queue: seq<string>, f: Flushed) {
    && NonEmptyFrames(f.queue)
    && |Flatten(f.queue)| <= |Flatten(queue)|
    && f.sent <= Flatten(queue)
    && (!f.failed ==> f.sent + Flatten(f.queue) == Flatten(queue))
  }

  lemma {:induction false} FlushConserves(queue: seq<string>, answers: seq<WriteOutcome>)
    requires NonEmptyFrames(queue)
    ensures Conserves(queue, Flush(queue, answers))
    decreases |queue|
  {
    if queue != [] {
      var b := TakeBatch(queue);
      BatchKeepsFrames(queue[0], queue[1..]);
      if answers != [] && answers[0].Wrote? && answers[0].n >= |b.bytes| {
        FlushConserves(b.left, answers[1..]);
        BatchIsGone(queue, b, Flush(b.left, answers[1..]));
      } else if answers != [] && answers[0].Wrote? {
        PartIsGone(queue, b, answers[0].n);
      } else {
        PartIsGone(queue, b, 0);
      }
    }
  }

  /** The whole batch went out, and the rest of the queue is dealt with as r says. */
  lemma BatchIsGone(queue: seq<string>, b: Batch, r: Flushed)
    requires b.bytes + Flatten(b.left) == Flatten(queue) && Conserves(b.left, r)
    ensures Conserves(queue, Flushed(r.queue, b.bytes + r.sent, r.failed))
  {
    PrefixAfter(b.bytes, r.sent, Flatten(b.left));
    AppendAssociates(b.bytes, r.sent, Flatten(r.queue));
  }

  /** The first n bytes of the batch went out, or none before a failure. */
  lemma PartIsGone(queue: seq<string>, b: Batch, n: nat)
    requires b.bytes + Flatten(b.left) == Flatten(queue) && NonEmptyFrames(b.left) && n < |b.bytes|
    ensures Conserves(queue, Flushed([b.bytes[n..]] + b.left, b.bytes[..n], false))
    ensures Conserves(queue, Flushed([b.bytes] + b.left, "", false))
    ensures Conserves(queue, Flushed(b.left, "", true))
  {
    FlattenFirst(b.bytes[n..], b.left);
    FlattenFirst(b.bytes, b.left);
    SplitAndJoin(b.bytes, n, Flatten(b.left));
    EmptyIsNeutral(Flatten(queue));
  }

  lemma FlattenFirst(first: string, rest: seq<string>)
    ensures Flatten([first] + rest) == first + Flatten(rest)
  {
    TailOfAppend([first], rest);
    EmptyIsNeutral(rest);
  }

  lemma {:induction false} BatchKeepsFrames(batch: string, queue: seq<string>)
    requires NonEmptyFrames(queue) && batch != ""
    ensures var b := FillBatch(batch, queue); NonEmptyFrames(b.left) && b.bytes != ""
    decreases |queue|
  {
    if queue != [] && |batch| + |queue[0]| <= SEND_BATCH_BYTES {
      BatchKeepsFrames(batch + queue[0], queue[1..]);
    }
  }

  /** A batch is as long as its limit allows: the next frame would not have fitted, and only a single frame may
      exceed the limit. */
  lemma {:induction false} BatchIsMaximal(batch: string, queue: seq<string>)
    requires NonEmptyFrames(queue) && batch != ""
    ensures var b := FillBatch(batch, queue);
      && (b.left != [] ==> |b.bytes| + |b.left[0]| > SEND_BATCH_BYTES)
      && (b.bytes == batch || |b.bytes| <= SEND_BATCH_BYTES)
    decreases |queue|
  {
    if queue != [] && |batch| + |queue[0]| <= SEND_BATCH_BYTES {
      BatchIsMaximal(batch + queue[0], queue[1..]);
    }
  }

  lemma EnqueueKeepsInv(s: Sender, msg: string)
    requires Inv(s) && Admits(s, msg)
    ensures Inv(Enqueued(s, msg))
  {
    var frame := SendPreview(msg);
    FlattenAppend(s.queue, [frame]);
    FramesAppend(s.accepted, [msg]);
    FlattenFirst(frame, []);
    EmptyIsNeutral(frame);
    assert Frames([msg]) == frame;
    AppendAssociates(s.written, Flatten(s.queue), frame);
  }

  lemma TrySendKeepsInv(s: Sender, answers: seq<WriteOutcome>)
    requires Inv(s) && s.connected && !s.broken
    ensures Inv(TrySendStep(s, answers))
  {
    FlushConserves(s.queue, answers);
    var f := Flush(s.queue, answers);
    PrefixAfter(s.written, f.sent, Flatten(s.queue));
    AppendAssociates(s.written, f.sent, Flatten(f.queue));
  }

  lemma SendKeepsInv(s: Sender, e: SendEvent)
    requires Inv(s)
    ensures Inv(Step(s, e))
  {
    match e
    case Enqueue(msg) => if Admits(s, msg) { EnqueueKeepsInv(s, msg); }
    case TrySend(answers) => if s.connected && !s.broken { TrySendKeepsInv(s, answers); }
    case CloseClient =>
  }

  lemma {:induction false} EveryRunKeepsInv(s: Sender, events: seq<SendEvent>)
    requires Inv(s)
    ensures Inv(Run(s, events))
    decreases |events|
  {
    if events != [] {
      SendKeepsInv(s, events[0]);
      EveryRunKeepsInv(Step(s, events[0]), events[1..]);
    }
  }

  // ---------------------------------------------------------------- end to end

  /** Whatever the kernel answers, the bytes on the wire are a prefix of the accepted frames, and
      without a failed write the queue holds exactly the rest of them. */
  lemma WireIsPrefixOfAccepted(events: seq<SendEvent>)
    ensures var s := Run(FRESH_SENDER, events);
            && s.written <= Frames(s.accepted)
            && (!s.broken ==> s.written + Flatten(s.queue) == Frames(s.accepted))
            && 0 <= s.queuedBytes <= MAX_SEND_QUEUE_BYTES
            && s.queuedBytes == |Flatten(s.queue)|
  {
    EveryRunKeepsInv(FRESH_SENDER, events);
  }

  /** A peer that decodes what was written sees a prefix of the accepted messages, and all of them once the
      queue has drained without a failed write. */
  lemma PeerDecodesAcceptedPrefix(events: seq<SendEvent>)
    requires AllFit(Run(FRESH_SENDER, events).accepted)
    ensures var s := Run(FRESH_SENDER, events);
            && Decode(s.written).msgs <= s.accepted
            && (s.queue == [] && !s.broken ==> Decode(s.written) == Decoded(s.accepted, ""))
  {
    EveryRunKeepsInv(FRESH_SENDER, events);
    var s := Run(FRESH_SENDER, events);
    var later := Frames(s.accepted)[|s.written|..];
    assert s.written + later == Frames(s.accepted);
    StreamRoundTrip(s.accepted);
    DecodeAppend(s.written, later);
    if s.queue == [] && !s.broken {
      assert s.written + "" == s.written;
    }
  }

  /** Answers that make the reference sender write exactly n bytes: full frames, then part of one. */
  function AnswersFor(queue: seq<string>, n: nat, failing: bool): seq<WriteOutcome>
    decreases |queue|
  {
    if queue == [] || n == 0 then (if failing then [Failed] else [WouldBlock])
    else if n < |queue[0]| then [Wrote(n)]
    else [Wrote(|queue[0]|)] + AnswersFor(queue[1..], n - |queue[0]|, failing)
  }

  lemma {:induction false} ReferenceCanWrite(queue: seq<string>, n: nat)
    requires NonEmptyFrames(queue) && n <= |Flatten(queue)|
    ensures var f := FlushOneByOne(queue, AnswersFor(queue, n, false));
            f.sent == Flatten(queue)[..n] && !f.failed && Flatten(f.queue) == Flatten(queue)[n..]
    decreases |queue|
  {
    if queue != [] && n != 0 {
      var more := Flatten(queue[1..]);
      assert Flatten(queue) == queue[0] + more;
      if n < |queue[0]| {
        var part := [queue[0][n..]] + queue[1..];
        assert part[1..] == queue[1..];
        assert Flatten(part) == queue[0][n..] + more;
      } else {
        ReferenceCanWrite(queue[1..], n - |queue[0]|);
        var answers := AnswersFor(queue, n, false);
        assert answers[1..] == AnswersFor(queue[1..], n - |queue[0]|, false);
        assert Flatten(queue)[..n] == queue[0] + more[..n - |queue[0]|];
        assert Flatten(queue)[n..] == more[n - |queue[0]|..];
      }
    }
  }

  /** The wire position of a failed batch is a frame boundary, so the reference sender can fail there too. */
  lemma {:induction false} ReferenceCanFail(queue: seq<string>, k: nat)
    requires NonEmptyFrames(queue) && k < |queue|
    ensures var f := FlushOneByOne(queue, AnswersFor(queue, |Flatten(queue[..k])|, true));
            f.sent == Flatten(queue[..k]) && f.failed
    decreases |queue|
  {
    if k != 0 {
      assert queue[..k][1..] == queue[1..][..k - 1];
      ReferenceCanFail(queue[1..], k - 1);
      var n := |Flatten(queue[..k])|;
      assert n == |queue[0]| + |Flatten(queue[1..][..k - 1])|;
      assert AnswersFor(queue, n, true)[1..] == AnswersFor(queue[1..], n - |queue[0]|, true);
    }
  }

  lemma {:induction false} BatchIsWholeFrames(batch: string, queue: seq<string>) returns (k: nat)
    ensures var b := FillBatch(batch, queue);
            k <= |queue| && b.left == queue[k..] && b.bytes == batch + Flatten(queue[..k])
    decreases |queue|
  {
    if queue == [] || (batch != "" && |batch| + |queue[0]| > SEND_BATCH_BYTES) {
      k := 0;
      assert batch + "" == batch;
    } else {
      var j := BatchIsWholeFrames(batch + queue[0], queue[1..]);
      k := j + 1;
      assert queue[..k][1..] == queue[1..][..j];
      assert (batch + queue[0]) + Flatten(queue[1..][..j]) == batch + Flatten(queue[..k]);
    }
  }

  /** The first i batches are a run of whole frames from the front of the queue. */
  lemma {:induction false} BatchesAreFrames(queue: seq<string>, offers: seq<string>, m: nat, i: nat) returns (k: nat)
    requires Batches(queue, offers, m) && i <= |offers| && m <= |queue|
    ensures k <= m && (i < |offers| ==> k < m) && Flatten(offers[..i]) == Flatten(queue[..k])
    decreases |offers|
  {
    if i == 0 {
      k := 0;
      if offers != [] {
        var n: nat :| IsBatch(queue, n, offers[0]) && n <= m && Batches(queue[n..], offers[1..], m - n);
      }
    } else {
      var n: nat :| IsBatch(queue, n, offers[0]) && n <= m && Batches(queue[n..], offers[1..], m - n);
      var j := BatchesAreFrames(queue[n..], offers[1..], m - n, i - 1);
      k := n + j;
      assert offers[..i] == [offers[0]] + offers[1..][..i - 1];
      FlattenFirst(offers[0], offers[1..][..i - 1]);
      assert queue[..k] == queue[..n] + queue[n..][..j];
      FlattenAppend(queue[..n], queue[n..][..j]);
    }
  }

  /** Batching refines the reference sender: for any answers the batched `try_send` gets there are answers
      under which the one-by-one `try_send` puts the same bytes on the wire, ends the same way and, unless
      the write failed, keeps the same bytes queued. */
  lemma BatchingRefinesOneByOne(queue: seq<string>, answers: seq<WriteOutcome>) returns (answers': seq<WriteOutcome>)
    requires NonEmptyFrames(queue)
    ensures var f, r := Flush(queue, answers), FlushOneByOne(queue, answers');
            && r.sent == f.sent
            && r.failed == f.failed
            && (!f.failed ==> Flatten(r.queue) == Flatten(f.queue))
  {
    FlushConserves(queue, answers);
    var f := Flush(queue, answers);
    if f.failed {
      var offers, m := SendsAllItCan(queue, answers);
      var k := BatchesAreFrames(queue, offers, m, |offers| - 1);
      answers' := AnswersFor(queue, |Flatten(queue[..k])|, true);
      ReferenceCanFail(queue, k);
    } else {
      answers' := AnswersFor(queue, |f.sent|, false);
      ReferenceCanWrite(queue, |f.sent|);
      assert Flatten(queue) == f.sent + Flatten(f.queue);
    }
  }
}
