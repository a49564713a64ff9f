/** The sender of one server and the reader of another, with a byte stream in between. */
module EndToEnd {
  import opened Framing
  import opened Sequences
  import SendPath
  import ReadPath

  /** However the sender batches and the kernel cuts its writes, however the stream arrives in reads, and whatever
      pauses, push-backs and retries the reader goes through: it hands on a prefix of the accepted messages, in
      order and none twice.  Once the sender has drained and the reader has taken everything up, it is all of them. */
  lemma DeliveredIsPrefixOfAccepted(sends: seq<SendPath.SendEvent>, turns: seq<ReadPath.ReadEvent>)
    requires AllFit(SendPath.Run(SendPath.FRESH_SENDER, sends).accepted)
    requires ReadPath.Run(ReadPath.FRESH_RECEIVER, turns).received <= SendPath.Run(SendPath.FRESH_SENDER, sends).written
    ensures var s, r := SendPath.Run(SendPath.FRESH_SENDER, sends), ReadPath.Run(ReadPath.FRESH_RECEIVER, turns);
      && r.delivered <= s.accepted
      && (s.queue == [] && !s.broken && r.connected && r.received == s.written && TakeOne(r.buffer).NotYet?
          ==> r.delivered == s.accepted)
  {
    var s, r := SendPath.Run(SendPath.FRESH_SENDER, sends), ReadPath.Run(ReadPath.FRESH_RECEIVER, turns);
    var unread := s.written[|r.received|..];
    assert r.received + unread == s.written;
    SendPath.PeerDecodesAcceptedPrefix(sends);
    ReadPath.BackpressureLosesNothing(turns, unread);
    if r.connected && unread == [] {
      EmptyIsNeutral(r.buffer);
      EmptyIsNeutral(r.delivered);
    }
  }
}
