/** What the two ends read into the frames they exchange, and what the frames they build mean. */
module Messages {
  import opened Bytes
  import opened Frames
  import opened Payloads

  type Sid = nat
  type Chunk = seq<Byte>

  datatype Message =
    | Open(sid: Sid)
    | Ack(sid: Sid, ok: bool)
    | Data(sid: Sid, data: Chunk)
    | Close(sid: Sid)
    | Udp(sid: Sid, data: Chunk)
    | Beat(timestamp: U64)
    | End
    | Ignored

  /** The server acts on the stream id inside an acknowledgement, not on the one in the frame header. */
  function ServerReads(utf8: Utf8, f: Frame): Message {
    match f.frameType
    case Heartbeat => if ParseTimestamp(f.payload).Ok? then Beat(ParseTimestamp(f.payload).value) else Ignored
    case StreamOpenAck =>
      (match ParseStreamOpenAck(f.payload)
       case Ok(r) => Ack(r.streamId, r.ok)
       case Err(_) => Ignored)
    case StreamData => Data(f.streamId, f.payload)
    case StreamClose => Close(f.streamId)
    case UdpDatagram =>
      (match ParseUdpDatagram(utf8, f.payload)
       case Ok(r) => Udp(f.streamId, r.rest)
       case Err(_) => Ignored)
    case _ => Ignored
  }

  /** An acknowledged heartbeat only resets the client's miss count (`Idle.HeartbeatState`); no stream notices. */
  function ClientReads(utf8: Utf8, lossy: Text -> Text, f: Frame): Message {
    match f.frameType
    case Heartbeat => if ParseTimestamp(f.payload).Ok? then Beat(ParseTimestamp(f.payload).value) else Ignored
    case StreamOpen => if ParseStreamOpen(utf8, lossy, f.payload).Ok? then Open(f.streamId) else Ignored
    case StreamData => Data(f.streamId, f.payload)
    case StreamClose => Close(f.streamId)
    case UdpDatagram =>
      (match ParseUdpDatagram(utf8, f.payload)
       case Ok(r) => Udp(f.streamId, r.rest)
       case Err(_) => Ignored)
    case Error => End
    case _ => Ignored
  }

  /** Each side reads the frames the other builds as what they were built for. */
  lemma FramesMeanWhatTheyWereBuiltFor(
      utf8: Utf8, lossy: Text -> Text, x: U32, ok: bool, data: Chunk, target: Text, peer: Text, now: U64)
    requires utf8(target) && Fits(target) && utf8([])
    ensures ServerReads(utf8, BuildStreamOpenAck(x, ok)) == Ack(x, ok)
    ensures ServerReads(utf8, BuildStreamData(x, data)) == Data(x, data)
    ensures ServerReads(utf8, BuildStreamClose(x)) == Close(x)
    ensures ServerReads(utf8, BuildUdpDatagram(x, [], data)) == Udp(x, data)
    ensures ServerReads(utf8, HeartbeatFrame(now)) == Beat(now)
    ensures ClientReads(utf8, lossy, BuildStreamOpen(x, target, peer)) == Open(x)
    ensures ClientReads(utf8, lossy, BuildStreamData(x, data)) == Data(x, data)
    ensures ClientReads(utf8, lossy, BuildStreamClose(x)) == Close(x)
    ensures ClientReads(utf8, lossy, BuildUdpDatagram(x, target, data)) == Udp(x, data)
    ensures ClientReads(utf8, lossy, HeartbeatAckFrame(now)) == Ignored
    ensures ClientReads(utf8, lossy, BuildError(target)) == End
  {
    hide ReadStr, Str, ParseStreamOpenAck;
    StreamOpenAckRoundTrip(x, ok);
    HeartbeatEchoes(now);
    UdpDatagramRoundTripIff(utf8, x, [], data);
    UdpDatagramRoundTripIff(utf8, x, target, data);
    ReadStrOfStr(utf8, target, Str(peer));
  }

  /** The text conversions, and a target that fits its field, as every string of the source is valid text. */
  datatype Texts = Texts(utf8: Utf8, lossy: Text -> Text, target: Text, peer: Text)

  ghost predicate TextsFit(t: Texts) {
    t.utf8(t.target) && Fits(t.target) && t.utf8([])
  }
}
