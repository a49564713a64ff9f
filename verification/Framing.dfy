/** Length-prefixed frames: four decimal digits, then that many bytes.  A `char` stands for one byte. */
module Framing {
  import opened Decimal
  import opened Sequences

  const HEADER_BYTES: nat := 4
  const MAX_FRAME_BYTES: nat := 9999

  /** The header: a decimal length, filled up with leading zeros to four places. */
  function Pad(s: string): (p: string)
    ensures |p| == if |s| < HEADER_BYTES then HEADER_BYTES else |s|
    decreases HEADER_BYTES - |s|
  {
    if |s| < HEADER_BYTES then Pad("0" + s) else s
  }

  function SendPreview(msg: string): string {
    Pad(Print(|msg|)) + msg
  }

  method EncodeFrame(msg: string) returns (frame: string)
    ensures frame == SendPreview(msg)
  {
    var lenStr := Print(|msg|);
    while |lenStr| < HEADER_BYTES
      invariant Pad(lenStr) == Pad(Print(|msg|))
      decreases HEADER_BYTES - |lenStr|
    {
      lenStr := "0" + lenStr;
    }
    frame := lenStr + msg;
  }

  /** The bytes a sender puts on the wire for a list of messages. */
  function Frames(msgs: seq<string>): string {
    if msgs == [] then [] else SendPreview(msgs[0]) + Frames(msgs[1..])
  }

  ghost predicate AllFit(msgs: seq<string>) {
    forall i :: 0 <= i < |msgs| ==> |msgs[i]| <= MAX_FRAME_BYTES
  }

  predicate HasHeader(b: string) {
    HEADER_BYTES <= |b| && AllDigits(b[..HEADER_BYTES])
  }

  function FrameLength(b: string): (len: nat)
    requires HasHeader(b)
    ensures len <= MAX_FRAME_BYTES
  {
    HeaderBound(b[..HEADER_BYTES]);
    Parse(b[..HEADER_BYTES])
  }

  /** What one call of `take_one_message` does to a buffer. */
  datatype Take = Taken(msg: string, rest: string) | NotYet(rest: string)

  /** Drop bytes until four digits stand at the front; then cut out the frame if all of it is there. */
  function TakeOne(b: string): (t: Take)
    ensures t.Taken? ==> HEADER_BYTES + |t.msg| + |t.rest| <= |b| && |t.msg| <= MAX_FRAME_BYTES
    ensures t.NotYet? ==> |t.rest| <= |b|
  {
    if |b| < HEADER_BYTES then NotYet(b)
    else if !HasHeader(b) then TakeOne(b[1..])
    else
      var len := FrameLength(b);
      if |b| < HEADER_BYTES + len then NotYet(b)
      else Taken(b[HEADER_BYTES..HEADER_BYTES + len], b[HEADER_BYTES + len..])
  }

  /** How many leading bytes `TakeOne` throws away before it meets a header (or too few bytes for one). */
  function Garbage(b: string): (n: nat)
    ensures n <= |b|
  {
    if |b| < HEADER_BYTES || HasHeader(b) then 0 else 1 + Garbage(b[1..])
  }

  /** All messages of a buffer, and the bytes that stay behind. */
  datatype Decoded = Decoded(msgs: seq<string>, rest: string)

  function Decode(b: string): Decoded
    decreases |b|
  {
    match TakeOne(b)
    case NotYet(rest) => Decoded([], rest)
    case Taken(m, rest) =>
      var d := Decode(rest);
      Decoded([m] + d.msgs, d.rest)
  }

  /** The receive loop seen from outside: append a chunk, decode, keep the leftover, repeat. */
  function Feed(buffer: string, chunks: seq<string>): Decoded
    decreases |chunks|
  {
    if chunks == [] then Decode(buffer)
    else
      var d := Decode(buffer);
      var more := Feed(d.rest + chunks[0], chunks[1..]);
      Decoded(d.msgs + more.msgs, more.rest)
  }

  function Flatten(parts: seq<string>): string {
    if parts == [] then [] else parts[0] + Flatten(parts[1..])
  }

  // ---------------------------------------------------------------- the loops of the source

  /** The digit test of the header, byte by byte. */
  method IsHeaderAt(buffer: string, pos: nat) returns (valid: bool)
    requires pos + HEADER_BYTES <= |buffer|
    ensures valid <==> HasHeader(buffer[pos..])
  {
    var header := buffer[pos..][..HEADER_BYTES];
    valid := true;
    var i := 0;
    while i < HEADER_BYTES
      invariant 0 <= i <= HEADER_BYTES
      invariant forall j :: 0 <= j < i ==> IsDigit(header[j])
    {
      if !IsDigit(header[i]) {
        return false;
      }
      i := i + 1;
    }
  }

  /** The branch of the source for a length above `max_frame_bytes` is dead: four digits never exceed it. */
  method TakeOneMessage(buffer: string) returns (found: bool, out: string, rest: string)
    ensures TakeOne(buffer) == if found then Taken(out, rest) else NotYet(rest)
  {
    var pos := 0;
    while pos + HEADER_BYTES <= |buffer|
      invariant pos <= |buffer|
      invariant TakeOne(buffer) == TakeOne(buffer[pos..])
    {
      ghost var here := buffer[pos..];
      var valid := IsHeaderAt(buffer, pos);
      if !valid {
        assert here[1..] == buffer[pos + 1..];
        pos := pos + 1;
        continue;
      }
      var len := Parse(buffer[pos..][..HEADER_BYTES]);
      assert len == FrameLength(here);
      if len > MAX_FRAME_BYTES {
        assert false;
      }
      if |buffer| < pos + HEADER_BYTES + len {
        return false, "", buffer[pos..];
      }
      assert here[HEADER_BYTES..HEADER_BYTES + len] == buffer[pos + HEADER_BYTES..pos + HEADER_BYTES + len];
      assert here[HEADER_BYTES + len..] == buffer[pos + HEADER_BYTES + len..];
      return true, buffer[pos + HEADER_BYTES..pos + HEADER_BYTES + len], buffer[pos + HEADER_BYTES + len..];
    }
    return false, "", buffer[pos..];
  }

  /** The messages cut so far, and what is to be decoded from pos on. */
  ghost predicate CutUpTo(buffer: string, pos: nat, messages: seq<string>) {
    && pos <= |buffer|
    && var d := Decode(buffer[pos..]); Decode(buffer) == Decoded(messages + d.msgs, d.rest)
  }

  lemma NothingCut(buffer: string)
    ensures CutUpTo(buffer, 0, [])
  {
    assert buffer[0..] == buffer;
    EmptyIsNeutral(Decode(buffer).msgs);
  }

  lemma SkipOne(buffer: string, pos: nat, messages: seq<string>)
    requires CutUpTo(buffer, pos, messages) && pos + HEADER_BYTES <= |buffer| && !HasHeader(buffer[pos..])
    ensures CutUpTo(buffer, pos + 1, messages)
  {
    assert buffer[pos..][1..] == buffer[pos + 1..];
  }

  lemma CutOne(buffer: string, pos: nat, messages: seq<string>)
    requires CutUpTo(buffer, pos, messages) && pos + HEADER_BYTES <= |buffer| && HasHeader(buffer[pos..])
    requires pos + HEADER_BYTES + FrameLength(buffer[pos..]) <= |buffer|
    ensures var start := pos + HEADER_BYTES; var end := start + FrameLength(buffer[pos..]);
            CutUpTo(buffer, end, messages + [buffer[start..end]])
  {
    var here, len := buffer[pos..], FrameLength(buffer[pos..]);
    var start := pos + HEADER_BYTES;
    assert here[HEADER_BYTES..HEADER_BYTES + len] == buffer[start..start + len];
    assert here[HEADER_BYTES + len..] == buffer[start + len..];
    AppendAssociates(messages, [buffer[start..start + len]], Decode(buffer[start + len..]).msgs);
  }

  lemma NoFrame(buffer: string, pos: nat, messages: seq<string>)
    requires CutUpTo(buffer, pos, messages)
    requires |buffer| < pos + HEADER_BYTES
             || (HasHeader(buffer[pos..]) && |buffer| < pos + HEADER_BYTES + FrameLength(buffer[pos..]))
    ensures Decode(buffer) == Decoded(messages, buffer[pos..])
  {
    EmptyIsNeutral(messages);
  }

  /** `spilit_message`: all complete frames in one pass over the buffer. */
  method SplitMessages(buffer: string) returns (messages: seq<string>, rest: string)
    ensures Decode(buffer) == Decoded(messages, rest)
  {
    messages := [];
    var pos := 0;
    NothingCut(buffer);
    while pos + HEADER_BYTES <= |buffer|
      invariant CutUpTo(buffer, pos, messages)
    {
      var valid := IsHeaderAt(buffer, pos);
      if !valid {
        SkipOne(buffer, pos, messages);
        pos := pos + 1;
        continue;
      }
      var len := FrameLength(buffer[pos..]);
      if pos + HEADER_BYTES + len > |buffer| {
        break;
      }
      CutOne(buffer, pos, messages);
      messages := messages + [buffer[pos + HEADER_BYTES..pos + HEADER_BYTES + len]];
      pos := pos + HEADER_BYTES + len;
    }
    NoFrame(buffer, pos, messages);
    rest := buffer[pos..];
  }

  // ---------------------------------------------------------------- headers

  lemma HeaderBound(h: string)
    requires |h| == HEADER_BYTES && AllDigits(h)
    ensures Parse(h) <= MAX_FRAME_BYTES
  {
    ParseBound(h);
    assert Pow10(4) == 10000;
  }

  lemma {:induction false} PadKeepsNumber(s: string)
    requires AllDigits(s)
    ensures AllDigits(Pad(s)) && Parse(Pad(s)) == Parse(s)
    decreases HEADER_BYTES - |s|
  {
    if |s| < HEADER_BYTES {
      ParseLeadingZero(s);
      PadKeepsNumber("0" + s);
    }
  }

  /** The header is four digits exactly for messages of at most 9999 bytes. */
  lemma HeaderIsFourDigits(n: nat)
    ensures AllDigits(Pad(Print(n))) && Parse(Pad(Print(n))) == n
    ensures |Pad(Print(n))| == HEADER_BYTES <==> n <= MAX_FRAME_BYTES
  {
    PadKeepsNumber(Print(n));
    PrintThenParse(n);
    PrintLength(n, 4);
    assert Pow10(4) == 10000;
  }

  /** Parsing a header and printing it again gives the same four bytes. */
  lemma HeaderReprints(h: string)
    requires |h| == HEADER_BYTES && AllDigits(h)
    ensures Pad(Print(Parse(h))) == h
  {
    HeaderBound(h);
    HeaderIsFourDigits(Parse(h));
    ParseInjective(Pad(Print(Parse(h))), h);
  }

  lemma FourDigits(h: string)
    requires |h| == 4 && AllDigits(h)
    ensures Parse(h) == 1000 * (h[0] as int - 48) + 100 * (h[1] as int - 48) + 10 * (h[2] as int - 48)
                        + (h[3] as int - 48)
  {
    var a, b, c := h[..3], h[..2], h[..1];
    assert Parse(c) == DigitValue(h[0]) by {
      assert c[..0] == [];
    }
    assert Parse(b) == 10 * Parse(c) + DigitValue(h[1]) by {
      assert b[..1] == c;
    }
    assert Parse(a) == 10 * Parse(b) + DigitValue(h[2]) by {
      assert a[..2] == b;
    }
  }

  /** The bytes on the wire: four ASCII digits that spell the length, then the message; a message too long for four
      digits has more of them in front. */
  lemma WireFormat(msg: string)
    ensures var f, n := SendPreview(msg), |msg|;
      && n + 4 <= |f| && f[|f| - n..] == msg
      && (forall i :: 0 <= i < |f| - n ==> 48 <= f[i] as int <= 57)
      && (n <= 9999 ==> |f| == n + 4 && Spelled(f, 0) == n)
      && (n > 9999 ==> f == Print(n) + msg && |f| > n + 4)
  {
    HeaderIsFourDigits(|msg|);
    var h, f := Pad(Print(|msg|)), SendPreview(msg);
    assert f == h + msg && |f| - |msg| == |h|;
    assert forall i :: 0 <= i < |h| ==> IsDigit(h[i]) && f[i] == h[i];
    if |msg| <= 9999 {
      FourDigits(h);
    } else {
      assert |Print(|msg|)| > 4 by {
        PrintLength(|msg|, 4);
        assert Pow10(4) == 10000;
      }
    }
  }

  // ---------------------------------------------------------------- decoding

  /** Four ASCII digits stand at this position. */
  predicate DigitsAt(b: string, pos: nat) {
    pos + 4 <= |b| && forall i :: pos <= i < pos + 4 ==> 48 <= b[i] as int <= 57
  }

  /** The number they spell. */
  function Spelled(b: string, pos: nat): nat
    requires DigitsAt(b, pos)
  {
    1000 * (b[pos] as int - 48) + 100 * (b[pos + 1] as int - 48) + 10 * (b[pos + 2] as int - 48)
    + (b[pos + 3] as int - 48)
  }

  lemma DigitsAreHeader(b: string)
    ensures HasHeader(b) <==> DigitsAt(b, 0)
    ensures DigitsAt(b, 0) ==> FrameLength(b) == Spelled(b, 0)
  {
    if |b| >= HEADER_BYTES {
      var h := b[..HEADER_BYTES];
      assert AllDigits(h) <==> forall i :: 0 <= i < 4 ==> IsDigit(b[i]) by {
        assert forall i :: 0 <= i < 4 ==> h[i] == b[i];
      }
      if AllDigits(h) {
        FourDigits(h);
      }
    }
  }

  /** `take_one_message` by positions: it looks for the first four digits in a row, and takes what they announce or
      waits for it; without any, the last three bytes stay. */
  lemma {:induction false} TakesFirstFrame(b: string, pos: nat)
    requires pos <= |b| && forall p :: 0 <= p < pos ==> !DigitsAt(b, p)
    ensures DigitsAt(b, pos) ==>
      TakeOne(b) == var n := Spelled(b, pos);
                    if pos + 4 + n <= |b| then Taken(b[pos + 4..pos + 4 + n], b[pos + 4 + n..]) else NotYet(b[pos..])
    ensures pos + 3 == |b| || (pos == 0 && |b| < 3) ==> TakeOne(b) == NotYet(b[pos..])
    decreases |b|
  {
    DigitsAreHeader(b);
    if pos == 0 {
      assert b[0..] == b;
    } else if pos + 3 <= |b| {
      DigitsShift(b);
      TakesFirstFrame(b[1..], pos - 1);
      SliceShift(b, pos);
    }
  }

  lemma DigitsShift(b: string)
    requires b != ""
    ensures forall p: nat :: DigitsAt(b[1..], p) == DigitsAt(b, p + 1)
    ensures forall p: nat :: DigitsAt(b, p + 1) ==> Spelled(b[1..], p) == Spelled(b, p + 1)
  {
    forall p: nat ensures DigitsAt(b[1..], p) == DigitsAt(b, p + 1) {
      if p + 5 <= |b| {
        assert b[1..][p] == b[p + 1] && b[1..][p + 1] == b[p + 2];
        assert b[1..][p + 2] == b[p + 3] && b[1..][p + 3] == b[p + 4];
      }
    }
  }

  lemma SliceShift(b: string, pos: nat)
    requires 0 < pos <= |b|
    ensures b[1..][pos - 1..] == b[pos..]
    ensures forall i, j :: pos <= i <= j <= |b| ==> b[1..][i - 1..j - 1] == b[i..j] && b[1..][j - 1..] == b[j..]
  {
  }

  /** A frame is read back, whatever follows it, exactly when its message fits a four-digit header. */
  lemma RoundTrip(m: string, tail: string)
    ensures TakeOne(SendPreview(m) + tail) == Taken(m, tail) <==> |m| <= MAX_FRAME_BYTES
  {
    HeaderIsFourDigits(|m|);
    var h := Pad(Print(|m|));
    var b := SendPreview(m) + tail;
    assert b == h + (m + tail);
    assert b[..HEADER_BYTES] == h[..HEADER_BYTES];
    if |m| <= MAX_FRAME_BYTES {
      assert b[..HEADER_BYTES] == h;
      assert b[HEADER_BYTES..HEADER_BYTES + |m|] == m;
      assert b[HEADER_BYTES + |m|..] == tail;
    }
  }

  /** The exact push-back: re-inserting `SendPreview(out)` restores the buffer from the header onward. */
  lemma {:induction false} PushBack(b: string)
    requires TakeOne(b).Taken?
    ensures var t := TakeOne(b); SendPreview(t.msg) + t.rest == b[Garbage(b)..]
    ensures var t := TakeOne(b); TakeOne(SendPreview(t.msg) + t.rest) == t
  {
    var t := TakeOne(b);
    RoundTrip(t.msg, t.rest);
    if HasHeader(b) {
      var h := b[..HEADER_BYTES];
      HeaderReprints(h);
      assert b == h + (t.msg + t.rest);
    } else {
      PushBack(b[1..]);
    }
  }

  /** What is left when no frame is complete is short, has no garbage in front, and stays as it is. */
  lemma {:induction false} LeftoverIsShort(b: string)
    requires TakeOne(b).NotYet?
    ensures var r := TakeOne(b).rest; |r| <= 3 + MAX_FRAME_BYTES && TakeOne(r) == NotYet(r)
    ensures TakeOne(b).rest == b[Garbage(b)..]
  {
    if |b| >= HEADER_BYTES && !HasHeader(b) {
      LeftoverIsShort(b[1..]);
    }
  }

  /** Later bytes never change what has already been cut out. */
  lemma {:induction false} TakeOneAppend(a: string, b: string)
    ensures TakeOne(a).Taken? ==> TakeOne(a + b) == Taken(TakeOne(a).msg, TakeOne(a).rest + b)
    ensures TakeOne(a).NotYet? ==> TakeOne(a + b) == TakeOne(TakeOne(a).rest + b)
  {
    if |a| >= HEADER_BYTES {
      assert (a + b)[..HEADER_BYTES] == a[..HEADER_BYTES];
      if !HasHeader(a) {
        TakeOneAppend(a[1..], b);
        assert (a + b)[1..] == a[1..] + b;
      } else {
        var len := FrameLength(a);
        if HEADER_BYTES + len <= |a| {
          assert (a + b)[HEADER_BYTES..HEADER_BYTES + len] == a[HEADER_BYTES..HEADER_BYTES + len];
          assert (a + b)[HEADER_BYTES + len..] == a[HEADER_BYTES + len..] + b;
        }
      }
    }
  }

  /** Decoding a stream in two parts, the leftover of the first carried into the second, changes nothing. */
  lemma {:induction false} DecodeAppend(a: string, b: string)
    ensures var d := Decode(a); var e := Decode(d.rest + b);
            Decode(a + b) == Decoded(d.msgs + e.msgs, e.rest)
    decreases |a|
  {
    TakeOneAppend(a, b);
    var t := TakeOne(a);
    if t.Taken? {
      DecodeAppend(t.rest, b);
      var d := Decode(t.rest);
      var e := Decode(d.rest + b);
      assert [t.msg] + (d.msgs + e.msgs) == ([t.msg] + d.msgs) + e.msgs;
    } else {
      var e := Decode(t.rest + b);
      assert [] + e.msgs == e.msgs;
    }
  }

  /** However the stream is cut into chunks, the messages and the leftover are the same. */
  lemma {:induction false} ChunkingIsInvisible(buffer: string, chunks: seq<string>)
    ensures Feed(buffer, chunks) == Decode(buffer + Flatten(chunks))
    decreases |chunks|
  {
    if chunks == [] {
      assert buffer + Flatten(chunks) == buffer;
    } else {
      var d := Decode(buffer);
      var later := Flatten(chunks);
      ChunkingIsInvisible(d.rest + chunks[0], chunks[1..]);
      assert (d.rest + chunks[0]) + Flatten(chunks[1..]) == d.rest + later;
      DecodeAppend(buffer, later);
      var more := Decode(d.rest + later);
      assert Feed(buffer, chunks) == Decoded(d.msgs + more.msgs, more.rest);
    }
  }

  lemma {:induction false} DecodeFrames(msgs: seq<string>, tail: string)
    requires AllFit(msgs)
    ensures Decode(Frames(msgs) + tail) == Decoded(msgs + Decode(tail).msgs, Decode(tail).rest)
    decreases |msgs|
  {
    if msgs == [] {
      EmptyIsNeutral(tail);
      EmptyIsNeutral(Decode(tail).msgs);
    } else {
      var more := Frames(msgs[1..]) + tail;
      AppendAssociates(SendPreview(msgs[0]), Frames(msgs[1..]), tail);
      RoundTrip(msgs[0], more);
      DecodeFrames(msgs[1..], tail);
      AppendAssociates([msgs[0]], msgs[1..], Decode(tail).msgs);
      assert [msgs[0]] + msgs[1..] == msgs;
    }
  }

  lemma {:induction false} DecodedMessagesFit(b: string)
    ensures AllFit(Decode(b).msgs)
    decreases |b|
  {
    var t := TakeOne(b);
    if t.Taken? {
      DecodedMessagesFit(t.rest);
    }
  }

  /** A whole stream is read back exactly when every message fits a four-digit header. */
  lemma StreamRoundTrip(msgs: seq<string>)
    ensures Decode(Frames(msgs)) == Decoded(msgs, "") <==> AllFit(msgs)
  {
    if AllFit(msgs) {
      DecodeFrames(msgs, "");
      assert Frames(msgs) + "" == Frames(msgs);
      assert msgs + [] == msgs;
    }
    DecodedMessagesFit(Frames(msgs));
  }

  /** A prefix none of whose four-byte windows is all digits is skipped, and nothing else is. */
  lemma {:induction false} GarbageIsSkipped(g: string, b: string)
    requires HEADER_BYTES - 1 <= |b|
    requires forall i :: 0 <= i < |g| ==> !HasHeader((g + b)[i..])
    ensures TakeOne(g + b) == TakeOne(b) && Decode(g + b) == Decode(b)
  {
    if g == [] {
      assert g + b == b;
    } else {
      assert (g + b)[0..] == g + b;
      assert (g + b)[1..] == g[1..] + b;
      forall i | 0 <= i < |g[1..]| ensures !HasHeader((g[1..] + b)[i..]) {
        assert (g + b)[i + 1..] == (g[1..] + b)[i..];
      }
      GarbageIsSkipped(g[1..], b);
    }
  }

  lemma {:induction false} FramesAppend(a: seq<string>, b: seq<string>)
    ensures Frames(a + b) == Frames(a) + Frames(b)
  {
    if a == [] {
      EmptyIsNeutral(b);
      EmptyIsNeutral(Frames(b));
    } else {
      FramesAppend(a[1..], b);
      TailOfAppend(a, b);
      AppendAssociates(SendPreview(a[0]), Frames(a[1..]), Frames(b));
    }
  }

  lemma {:induction false} FlattenAppend(a: seq<string>, b: seq<string>)
    ensures Flatten(a + b) == Flatten(a) + Flatten(b)
  {
    if a == [] {
      EmptyIsNeutral(b);
      EmptyIsNeutral(Flatten(b));
    } else {
      FlattenAppend(a[1..], b);
      TailOfAppend(a, b);
      AppendAssociates(a[0], Flatten(a[1..]), Flatten(b));
    }
  }
}
