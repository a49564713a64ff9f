/** The read side of a connection: the `handle_read` loop with its push-back on a full window or a full
    parse queue.  Each turn of the loop meets one record of what the outside world answered. */
module ReadPath {
  import opened Framing

  const MAX_READ_BUFFER_BYTES: nat := 1024 * 1024
  const READ_CHUNK_BYTES: nat := 1024
  /** A leftover without a complete frame, plus one read. */
  const REAL_BUFFER_BOUND: nat := 3 + MAX_FRAME_BYTES + READ_CHUNK_BYTES

  /** The result of `read`: some bytes, nothing right now, or end of stream / an error. */
  datatype ReadResult = Data(bytes: string) | Again | Gone

  /** The result of `on_message`; `AcceptedPaused` is `Ok` for a message parked in the DB waiting queue. */
  datatype Verdict = Accepted | AcceptedPaused | Full | Closed

  /** What one turn of the loop finds: the socket, the window slot, the handler. */
  datatype Turn = Turn(io: ReadResult, slot: bool, verdict: Verdict)

  /** `received` and `delivered` are history: the bytes read so far, the messages the handler said `Ok` to. */
  datatype Receiver = Receiver(
    connected: bool, paused: bool, buffer: string,
    received: string, delivered: seq<string>)

  const FRESH_RECEIVER := Receiver(true, false, "", "", [])

  datatype TurnResult = TurnResult(state: Receiver, again: bool)

  /** At most 1024 bytes arrive with one read. */
  function Chunk(bytes: string): string {
    if |bytes| <= READ_CHUNK_BYTES then bytes else bytes[..READ_CHUNK_BYTES]
  }

  function ReadMore(s: Receiver, io: ReadResult): TurnResult {
    match io
    case Again => TurnResult(s, false)
    case Gone => TurnResult(s.(connected := false), false)
    case Data(bytes) =>
      var chunk := Chunk(bytes);
      if chunk == "" then TurnResult(s.(connected := false), false)
      else
        var s' := s.(buffer := s.buffer + chunk, received := s.received + chunk);
        if |s'.buffer| > MAX_READ_BUFFER_BYTES then TurnResult(s'.(connected := false), false)
        else TurnResult(s', true)
  }

  function Offer(s: Receiver, msg: string, t: Turn): TurnResult {
    if !t.slot then TurnResult(s.(buffer := SendPreview(msg) + s.buffer), false)
    else match t.verdict
      case Accepted => TurnResult(s.(delivered := s.delivered + [msg]), true)
      case AcceptedPaused => TurnResult(s.(delivered := s.delivered + [msg], paused := true), true)
      case Full => TurnResult(s.(buffer := SendPreview(msg) + s.buffer, paused := true), false)
      case Closed => TurnResult(s.(connected := false), false)
  }

  function TurnSpec(s: Receiver, t: Turn): TurnResult {
    match TakeOne(s.buffer)
    case NotYet(rest) => ReadMore(s.(buffer := rest), t.io)
    case Taken(msg, rest) => Offer(s.(buffer := rest), msg, t)
  }

  /** The loop, for as many turns as have been recorded. */
  function ReadSpec(s: Receiver, turns: seq<Turn>): Receiver
    decreases |turns|
  {
    if turns == [] || !s.connected || s.paused then s
    else
      var r := TurnSpec(s, turns[0]);
      if r.again then ReadSpec(r.state, turns[1..]) else r.state
  }

  /** A connection's life as its reactor sees it: reading, and being unpaused by a resume or a retry. */
  datatype ReadEvent = Reading(turns: seq<Turn>) | Unpause

  function Step(s: Receiver, e: ReadEvent): Receiver {
    match e
    case Reading(turns) => ReadSpec(s, turns)
    case Unpause => s.(paused := false)
  }

  function Run(s: Receiver, events: seq<ReadEvent>): Receiver
    decreases |events|
  {
    if events == [] then s else Run(Step(s, events[0]), events[1..])
  }

  // ---------------------------------------------------------------- the code, on its own state

  class Connection {
    var connected: bool
    var readingPaused: bool
    var readBuffer: string
    ghost var received: string
    ghost var delivered: seq<string>

    ghost function View(): Receiver
      reads this
    {
      Receiver(connected, readingPaused, readBuffer, received, delivered)
    }

    constructor ()
      ensures View() == FRESH_RECEIVER
    {
      connected, readingPaused, readBuffer, received, delivered := true, false, "", "", [];
    }

    /** One turn: a message is delivered, parked or put back, or without a complete frame more is read. */
    method OneTurn(t: Turn) returns (again: bool)
      modifies this
      ensures TurnResult(View(), again) == TurnSpec(old(View()), t)
      ensures Turned(old(View()), t, View(), again)
    {
      TurnMeans(View(), t);
      var found, msg, rest := TakeOneMessage(readBuffer);
      readBuffer := rest;
      if !found {
        match t.io
        case Again =>
          return false;
        case Gone =>
          connected := false;
          return false;
        case Data(bytes) =>
          var chunk := Chunk(bytes);
          if chunk == "" {
            connected := false;
            return false;
          }
          readBuffer := readBuffer + chunk;
          received := received + chunk;
          if |readBuffer| > MAX_READ_BUFFER_BYTES {
            connected := false;
            return false;
          }
          return true;
      }
      if !t.slot {
        var frame := EncodeFrame(msg);
        readBuffer := frame + readBuffer;
        return false;
      }
      match t.verdict
      case Accepted =>
        delivered := delivered + [msg];
        return true;
      case AcceptedPaused =>
        delivered := delivered + [msg];
        readingPaused := true;
        return true;
      case Full =>
        var frame := EncodeFrame(msg);
        readBuffer := frame + readBuffer;
        readingPaused := true;
        return false;
      case Closed =>
        connected := false;
        return false;
    }

    /** The loop; `seen` are the states it went through, turn by turn. */
    method HandleRead(turns: seq<Turn>) returns (ghost seen: seq<Receiver>)
      modifies this
      ensures View() == ReadSpec(old(View()), turns)
      ensures Reads(old(View()), turns, seen, View())
    {
      seen := ReadingMeans(View(), turns);
      var k := 0;
      while k < |turns| && connected && !readingPaused
        invariant 0 <= k <= |turns|
        invariant ReadSpec(View(), turns[k..]) == ReadSpec(old(View()), turns)
        decreases |turns| - k
      {
        ghost var before := View();
        assert turns[k..][1..] == turns[k + 1..];
        var again := OneTurn(turns[k]);
        assert ReadSpec(before, turns[k..])
            == if again then ReadSpec(View(), turns[k + 1..]) else View();
        k := k + 1;
        if !again {
          return;
        }
      }
    }
  }

  // ---------------------------------------------------------------- how far one `handle_read` gets

  /** The buffer holds a complete frame, and the window has a slot for its message. */
  predicate Offered(s: Receiver, t: Turn) {
    TakeOne(s.buffer).Taken? && t.slot
  }

  /** What one turn means for each part of the connection. */
  ghost predicate Turned(s: Receiver, t: Turn, r: Receiver, again: bool) {
    var m, data := TakeOne(s.buffer), if t.io.Data? then Chunk(t.io.bytes) else "";
    var more := m.NotYet? && data != "" && |r.buffer| <= MAX_READ_BUFFER_BYTES;
    && (again <==> if m.NotYet? then more else t.slot && (t.verdict.Accepted? || t.verdict.AcceptedPaused?))
    && (r.paused <==> s.paused || (Offered(s, t) && (t.verdict.AcceptedPaused? || t.verdict.Full?)))
    && (r.connected <==> s.connected && if m.NotYet? then more || t.io.Again? else !t.slot || !t.verdict.Closed?)
    && r.delivered == s.delivered + (if m.Taken? && again then [m.msg] else [])
    && r.received == s.received + (if m.NotYet? then data else "")
    && r.buffer == if m.NotYet? then m.rest + data
                   else if !t.slot || t.verdict.Full? then SendPreview(m.msg) + m.rest
                   else m.rest
  }

  lemma TurnMeans(s: Receiver, t: Turn)
    ensures Turned(s, t, TurnSpec(s, t).state, TurnSpec(s, t).again)
  {
    var m := TakeOne(s.buffer);
    assert s.delivered + [] == s.delivered && s.received + "" == s.received && m.rest + "" == m.rest;
  }

  /** The states of one `handle_read`, from s to r: every turn but the last went on, and the last one used did not,
      or it was the last recorded, or it left the connection paused. */
  ghost predicate Reads(s: Receiver, turns: seq<Turn>, seen: seq<Receiver>, r: Receiver) {
    var used := |seen| - 1;
    && 0 <= used <= |turns| && seen[0] == s && seen[used] == r
    && (forall i :: 0 <= i < used ==> seen[i].connected && !seen[i].paused)
    && (forall i :: 0 <= i < used - 1 ==> Turned(seen[i], turns[i], seen[i + 1], true))
    && (used == 0 ==> turns == [] || !s.connected || s.paused)
    && (used > 0 ==>
          || Turned(seen[used - 1], turns[used - 1], r, false)
          || (Turned(seen[used - 1], turns[used - 1], r, true) && (used == |turns| || r.paused)))
  }

  lemma {:induction false} ReadingMeans(s: Receiver, turns: seq<Turn>) returns (seen: seq<Receiver>)
    ensures Reads(s, turns, seen, ReadSpec(s, turns))
    decreases |turns|
  {
    seen := [s];
    if turns != [] && s.connected && !s.paused {
      TurnMeans(s, turns[0]);
      var t := TurnSpec(s, turns[0]);
      if t.again {
        var more := ReadingMeans(t.state, turns[1..]);
        seen := [s] + more;
        OneTurnMore(s, turns, t.state, more, ReadSpec(s, turns));
      } else {
        seen := [s, t.state];
      }
    }
  }

  lemma OneTurnMore(s: Receiver, turns: seq<Turn>, t: Receiver, more: seq<Receiver>, r: Receiver)
    requires turns != [] && s.connected && !s.paused
    requires Turned(s, turns[0], t, true) && Reads(t, turns[1..], more, r)
    ensures Reads(s, turns, [s] + more, r)
  {
    var seen := [s] + more;
    forall i | 0 <= i < |seen| - 2 ensures Turned(seen[i], turns[i], seen[i + 1], true) {
      if i > 0 {
        assert Turned(more[i - 1], turns[1..][i - 1], more[i], true);
      }
    }
  }

  /** Why reading stops with turns left over: the connection is closed or paused, or the last turn used found the
      window full, or the socket empty and no complete frame left.  And a connection is newly paused exactly by a
      parked or `Full` message, newly closed exactly by the end of the stream, an overlong buffer or `Closed`. */
  lemma WhyReadingStops(s: Receiver, turns: seq<Turn>) returns (seen: seq<Receiver>)
    requires s.connected && !s.paused
    ensures var r, used := ReadSpec(s, turns), |seen| - 1;
            && Reads(s, turns, seen, r)
            && (used < |turns| ==> used > 0)
            && (used < |turns| && r.connected && !r.paused ==>
                  if TakeOne(r.buffer).Taken? then !turns[used - 1].slot else turns[used - 1].io.Again?)
            && (r.paused <==> used > 0 && Offered(seen[used - 1], turns[used - 1])
                              && (turns[used - 1].verdict.AcceptedPaused? || turns[used - 1].verdict.Full?))
            && (!r.connected <==> used > 0 && if TakeOne(seen[used - 1].buffer).Taken?
                                              then turns[used - 1].slot && turns[used - 1].verdict.Closed?
                                              else turns[used - 1].io.Gone? || turns[used - 1].io == Data("")
                                                   || |r.buffer| > MAX_READ_BUFFER_BYTES)
  {
    seen := ReadingMeans(s, turns);
    var used := |seen| - 1;
    if used > 0 {
      var before := seen[used - 1];
      if TakeOne(before.buffer).Taken? {
        PushBack(before.buffer);
      } else {
        LeftoverIsShort(before.buffer);
        assert TakeOne(before.buffer).rest + "" == TakeOne(before.buffer).rest;
      }
    }
  }

  /** With a slot for each message and every verdict `Ok`, as many turns as the buffer holds complete frames deliver
      all of them, in order, and read nothing. */
  lemma {:induction false} EveryFrameIsDelivered(s: Receiver, turns: seq<Turn>)
    requires s.connected && !s.paused && |turns| == |Decode(s.buffer).msgs|
    requires forall i :: 0 <= i < |turns| ==> turns[i].slot && turns[i].verdict.Accepted?
    ensures var r := ReadSpec(s, turns);
            && r.connected && !r.paused
            && r.delivered == s.delivered + Decode(s.buffer).msgs
            && r.received == s.received
            && Decode(r.buffer) == Decoded([], Decode(s.buffer).rest)
    decreases |turns|
  {
    var m := TakeOne(s.buffer);
    if turns == [] {
      assert s.delivered + [] == s.delivered;
    } else {
      var r := TurnSpec(s, turns[0]);
      assert r == TurnResult(s.(buffer := m.rest, delivered := s.delivered + [m.msg]), true);
      EveryFrameIsDelivered(r.state, turns[1..]);
      assert s.delivered + ([m.msg] + Decode(m.rest).msgs) == (s.delivered + [m.msg]) + Decode(m.rest).msgs;
    }
  }

  // ---------------------------------------------------------------- nothing is lost

  /** Delivered messages followed by what the buffer still decodes to are what the whole input decodes to. */
  ghost predicate Lossless(s: Receiver) {
    var all, here := Decode(s.received), Decode(s.buffer);
    if s.connected then all == Decoded(s.delivered + here.msgs, here.rest)
    else s.delivered <= all.msgs
  }

  ghost predicate Bounded(s: Receiver) {
    |s.buffer| <= REAL_BUFFER_BOUND
  }

  /** Appending a chunk to a buffer without a complete frame keeps the account. */
  lemma ChunkKeeps(received: string, delivered: seq<string>, buffer: string, chunk: string)
    requires TakeOne(buffer) == NotYet(buffer) && Decode(received) == Decoded(delivered, buffer)
    ensures var here := Decode(buffer + chunk); Decode(received + chunk) == Decoded(delivered + here.msgs, here.rest)
  {
    DecodeAppend(received, chunk);
  }

  lemma ReadingKeeps(s: Receiver, io: ReadResult)
    requires Decode(s.received) == Decoded(s.delivered, s.buffer) && s.connected
    requires TakeOne(s.buffer) == NotYet(s.buffer) && |s.buffer| <= 3 + MAX_FRAME_BYTES
    ensures Lossless(ReadMore(s, io).state) && Bounded(ReadMore(s, io).state)
  {
    if io.Data? && io.bytes != "" {
      var chunk := Chunk(io.bytes);
      ChunkKeeps(s.received, s.delivered, s.buffer, chunk);
      assert ReadMore(s, io).state == s.(buffer := s.buffer + chunk, received := s.received + chunk);
    } else {
      assert s.delivered + [] == s.delivered;
    }
  }

  /** A message is either delivered, or stays where the decoder will find it again. */
  lemma DeliveredOrKept(all: Decoded, delivered: seq<string>, b: string)
    requires TakeOne(b).Taken? && all == Decoded(delivered + Decode(b).msgs, Decode(b).rest)
    ensures var m := TakeOne(b);
      && all == Decoded((delivered + [m.msg]) + Decode(m.rest).msgs, Decode(m.rest).rest)
      && all == Decoded(delivered + Decode(SendPreview(m.msg) + m.rest).msgs, Decode(SendPreview(m.msg) + m.rest).rest)
      && delivered <= all.msgs
  {
    var m := TakeOne(b);
    PushBack(b);
    assert delivered + ([m.msg] + Decode(m.rest).msgs) == (delivered + [m.msg]) + Decode(m.rest).msgs;
  }

  lemma OfferKeeps(s: Receiver, t: Turn)
    requires Lossless(s) && s.connected && TakeOne(s.buffer).Taken?
    ensures var m := TakeOne(s.buffer); Lossless(Offer(s.(buffer := m.rest), m.msg, t).state)
  {
    DeliveredOrKept(Decode(s.received), s.delivered, s.buffer);
  }

  lemma OfferShortens(s: Receiver, t: Turn)
    requires TakeOne(s.buffer).Taken?
    ensures var m := TakeOne(s.buffer); |Offer(s.(buffer := m.rest), m.msg, t).state.buffer| <= |s.buffer|
  {
    PushBack(s.buffer);
  }

  lemma TurnKeeps(s: Receiver, t: Turn)
    requires Lossless(s) && Bounded(s) && s.connected
    ensures Lossless(TurnSpec(s, t).state) && Bounded(TurnSpec(s, t).state)
  {
    var m := TakeOne(s.buffer);
    if m.NotYet? {
      LeftoverIsShort(s.buffer);
      assert s.delivered + [] == s.delivered;
      ReadingKeeps(s.(buffer := m.rest), t.io);
    } else {
      OfferKeeps(s, t);
      OfferShortens(s, t);
    }
  }

  lemma {:induction false} HandleReadKeeps(s: Receiver, turns: seq<Turn>)
    requires Lossless(s) && Bounded(s)
    ensures Lossless(ReadSpec(s, turns)) && Bounded(ReadSpec(s, turns))
    decreases |turns|
  {
    if turns != [] && s.connected && !s.paused {
      TurnKeeps(s, turns[0]);
      var r := TurnSpec(s, turns[0]);
      if r.again {
        HandleReadKeeps(r.state, turns[1..]);
      }
    }
  }

  lemma {:induction false} EveryRunKeeps(s: Receiver, events: seq<ReadEvent>)
    requires Lossless(s) && Bounded(s)
    ensures Lossless(Run(s, events)) && Bounded(Run(s, events))
    decreases |events|
  {
    if events != [] {
      if events[0].Reading? {
        HandleReadKeeps(s, events[0].turns);
      }
      EveryRunKeeps(Step(s, events[0]), events[1..]);
    }
  }

  /** Backpressure loses nothing.  For any chunking of the input and any mix of window-full, `Ok`, parked and
      `Full` outcomes, and for any bytes still unread: delivered messages, then what buffer and unread bytes
      decode to, are exactly what the whole stream decodes to.  A closed connection delivered a prefix. */
  lemma BackpressureLosesNothing(events: seq<ReadEvent>, unread: string)
    ensures var s := Run(FRESH_RECEIVER, events);
            var all, ahead := Decode(s.received + unread), Decode(s.buffer + unread);
            if s.connected then all == Decoded(s.delivered + ahead.msgs, ahead.rest)
            else s.delivered <= all.msgs
  {
    EveryRunKeeps(FRESH_RECEIVER, events);
    var s := Run(FRESH_RECEIVER, events);
    DecodeAppend(s.received, unread);
    if s.connected {
      DecodeAppend(s.buffer, unread);
      var here := Decode(s.buffer);
      var more := Decode(here.rest + unread);
      assert s.delivered + (here.msgs + more.msgs) == (s.delivered + here.msgs) + more.msgs;
    }
  }

  /** The buffer never holds more than 11026 bytes, so the 1 MiB limit never closes a connection. */
  lemma BufferLimitIsNeverReached(events: seq<ReadEvent>, t: Turn)
    ensures var s := Run(FRESH_RECEIVER, events);
            && |s.buffer| <= REAL_BUFFER_BOUND < MAX_READ_BUFFER_BYTES
            && (s.connected && TakeOne(s.buffer).NotYet? && t.io.Data? && t.io.bytes != ""
                ==> TurnSpec(s, t).state.connected)
  {
    EveryRunKeeps(FRESH_RECEIVER, events);
    var s := Run(FRESH_RECEIVER, events);
    if TakeOne(s.buffer).NotYet? {
      LeftoverIsShort(s.buffer);
    }
  }
}
