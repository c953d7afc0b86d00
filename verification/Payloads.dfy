/**
 * The payload codecs of src/protocol/handshake.rs, src/protocol/multiplex.rs and
 * src/protocol/heartbeat.rs. Text is its UTF-8 bytes. Which byte strings are valid UTF-8, and what the
 * lossy conversion makes of the others, are parameters.
 */
module Payloads {
  import opened Bytes
  import opened Frames

  type Text = seq<Byte>
  type Utf8 = seq<Byte> -> bool

  datatype PayloadError = TooShort | InvalidText | Truncated | WrongType(code: Byte)
  datatype Result<+T> = Ok(value: T) | Err(error: PayloadError)

  const HMAC_LEN: nat := 32

  // ---- Length-prefixed text ----

  /** The length goes through a 16-bit cast, the bytes do not. */
  function Str(s: Text): (e: seq<Byte>)
    ensures |e| == 2 + |s|
  {
    PutU16(|s| % U16_SIZE) + s
  }

  predicate Fits(s: Text) {
    |s| < U16_SIZE
  }

  datatype Parsed = Parsed(text: Text, rest: seq<Byte>)

  function ReadStr(utf8: Utf8, p: seq<Byte>): Result<Parsed> {
    if |p| < 2 then Err(TooShort)
    else if |p| - 2 < U16At(p, 0) then Err(TooShort)
    else if !utf8(p[2..2 + U16At(p, 0)]) then Err(InvalidText)
    else Ok(Parsed(p[2..2 + U16At(p, 0)], p[2 + U16At(p, 0)..]))
  }

  lemma ReadStrOfStr(utf8: Utf8, s: Text, rest: seq<Byte>)
    requires Fits(s)
    ensures U16At(Str(s) + rest, 0) == |s|
    ensures (Str(s) + rest)[2..2 + |s|] == s && (Str(s) + rest)[2 + |s|..] == rest
    ensures ReadStr(utf8, Str(s) + rest) == if utf8(s) then Ok(Parsed(s, rest)) else Err(InvalidText)
  {
    var p := Str(s) + rest;
    assert p[0..2] == PutU16(|s|);
    U16Field(p, 0, |s|);
    assert p[2..2 + |s|] == s && p[2 + |s|..] == rest;
  }

  /** A successful read took exactly the encoding of the text it returned. */
  lemma ReadStrInverse(utf8: Utf8, p: seq<Byte>)
    requires ReadStr(utf8, p).Ok?
    ensures var r := ReadStr(utf8, p).value;
      Fits(r.text) && utf8(r.text) && p == Str(r.text) + r.rest
  {
    hide PutU16;
    var n := U16At(p, 0);
    var text, rest := p[2..2 + n], p[2 + n..];
    U16Field(p, 0, n);
    assert Str(text) == p[0..2] + text;
    assert p == p[0..2] + text + rest;
  }

  /** A proper prefix of a text field and what follows either cuts the field or only what follows. */
  lemma ReadStrOfPrefix(utf8: Utf8, s: Text, rest: seq<Byte>, p: seq<Byte>)
    requires Fits(s) && utf8(s) && p < Str(s) + rest
    ensures |p| < |Str(s)| ==> ReadStr(utf8, p) == Err(TooShort)
    ensures |p| >= |Str(s)| ==>
      exists q :: q < rest && p == Str(s) + q && ReadStr(utf8, p) == Ok(Parsed(s, q))
  {
    var whole := Str(s) + rest;
    ReadStrOfStr(utf8, s, rest);
    if |p| >= 2 {
      assert U16At(p, 0) == U16At(whole, 0);
    }
    if |p| >= |Str(s)| {
      var q := rest[..|p| - |Str(s)|];
      assert p == whole[..|p|] == Str(s) + q;
      ReadStrOfStr(utf8, s, q);
    }
  }

  // ---- Handshake request ----

  datatype HandshakeRequest = HandshakeRequest(
    clientId: Text,
    version: Text,
    timestamp: U64,
    hmac: seq<Byte>,
    capabilities: Text)

  predicate ValidRequest(utf8: Utf8, r: HandshakeRequest) {
    |r.hmac| == HMAC_LEN && utf8(r.clientId) && utf8(r.version) && utf8(r.capabilities)
  }

  predicate RequestFits(r: HandshakeRequest) {
    Fits(r.clientId) && Fits(r.version) && Fits(r.capabilities)
  }

  function EncodeRequest(r: HandshakeRequest): seq<Byte> {
    Str(r.clientId) + (Str(r.version) + (PutU64(r.timestamp) + (r.hmac + Str(r.capabilities))))
  }

  function DecodeRequest(utf8: Utf8, p: seq<Byte>): Result<HandshakeRequest> {
    match ReadStr(utf8, p)
    case Err(e) => Err(e)
    case Ok(id) =>
      match ReadStr(utf8, id.rest)
      case Err(e) => Err(e)
      case Ok(version) =>
        if |version.rest| < 8 then Err(TooShort)
        else if |version.rest| - 8 < HMAC_LEN then Err(TooShort)
        else
          match ReadStr(utf8, version.rest[8 + HMAC_LEN..])
          case Err(e) => Err(e)
          case Ok(caps) =>
            Ok(HandshakeRequest(id.text, version.text, U64At(version.rest, 0),
                                version.rest[8..8 + HMAC_LEN], caps.text))
  }

  lemma FixedPart(timestamp: U64, hmac: seq<Byte>, rest: seq<Byte>)
    requires |hmac| == HMAC_LEN
    ensures var p := PutU64(timestamp) + (hmac + rest);
      U64At(p, 0) == timestamp && p[8..8 + HMAC_LEN] == hmac && p[8 + HMAC_LEN..] == rest
  {
    hide PutU64;
    var p := PutU64(timestamp) + (hmac + rest);
    assert p[0..8] == PutU64(timestamp);
    U64Field(p, 0, timestamp);
  }

  /** An input that begins with the encoding of a request that fits decodes to that request. */
  lemma RequestDecodes(utf8: Utf8, r: HandshakeRequest, more: seq<Byte>)
    requires ValidRequest(utf8, r) && RequestFits(r)
    ensures DecodeRequest(utf8, EncodeRequest(r) + more) == Ok(r)
  {
    hide Str, ReadStr, PutU64, U64At;
    var tail := Str(r.capabilities) + more;
    var fixed := PutU64(r.timestamp) + (r.hmac + tail);
    assert EncodeRequest(r) + more == Str(r.clientId) + (Str(r.version) + fixed);
    ReadStrOfStr(utf8, r.clientId, Str(r.version) + fixed);
    ReadStrOfStr(utf8, r.version, fixed);
    FixedPart(r.timestamp, r.hmac, tail);
    ReadStrOfStr(utf8, r.capabilities, more);
  }

  /** And any other input fails: what decodes begins with the encoding of what it decodes to. */
  lemma DecodedRequest(utf8: Utf8, p: seq<Byte>)
    requires DecodeRequest(utf8, p).Ok?
    ensures var r := DecodeRequest(utf8, p).value;
      ValidRequest(utf8, r) && RequestFits(r) && EncodeRequest(r) <= p
  {
    hide Str, ReadStr, PutU64, U64At;
    var r := DecodeRequest(utf8, p).value;
    var id := ReadStr(utf8, p).value;
    var version := ReadStr(utf8, id.rest).value;
    var v := version.rest;
    var caps := ReadStr(utf8, v[8 + HMAC_LEN..]).value;
    ReadStrInverse(utf8, p);
    ReadStrInverse(utf8, id.rest);
    ReadStrInverse(utf8, v[8 + HMAC_LEN..]);
    U64Field(v, 0, r.timestamp);
    assert v == PutU64(r.timestamp) + (r.hmac + (Str(r.capabilities) + caps.rest)) by {
      assert v == v[0..8] + (v[8..8 + HMAC_LEN] + v[8 + HMAC_LEN..]);
    }
    assert p == EncodeRequest(r) + caps.rest;
  }

  lemma RequestRoundTripIff(utf8: Utf8, r: HandshakeRequest)
    requires ValidRequest(utf8, r)
    ensures DecodeRequest(utf8, EncodeRequest(r)) == Ok(r) <==> RequestFits(r)
  {
    hide DecodeRequest, EncodeRequest;
    if RequestFits(r) {
      RequestDecodes(utf8, r, []);
      assert EncodeRequest(r) + [] == EncodeRequest(r);
    } else if DecodeRequest(utf8, EncodeRequest(r)) == Ok(r) {
      DecodedRequest(utf8, EncodeRequest(r));
    }
  }

  /** Every proper prefix of an encoded request is rejected, and for the right reason. */
  lemma RequestPrefixTooShort(utf8: Utf8, r: HandshakeRequest, p: seq<Byte>)
    requires ValidRequest(utf8, r) && RequestFits(r) && p < EncodeRequest(r)
    ensures DecodeRequest(utf8, p) == Err(TooShort)
  {
    hide Str, ReadStr, PutU64, U64At;
    var caps := Str(r.capabilities);
    var fixed := PutU64(r.timestamp) + (r.hmac + caps);
    ReadStrOfPrefix(utf8, r.clientId, Str(r.version) + fixed, p);
    if |p| >= |Str(r.clientId)| {
      var q :| q < Str(r.version) + fixed && p == Str(r.clientId) + q
            && ReadStr(utf8, p) == Ok(Parsed(r.clientId, q));
      ReadStrOfPrefix(utf8, r.version, fixed, q);
      if |q| >= |Str(r.version)| {
        var v :| v < fixed && q == Str(r.version) + v && ReadStr(utf8, q) == Ok(Parsed(r.version, v));
        if |v| >= 8 + HMAC_LEN {
          assert v[8 + HMAC_LEN..] < caps by {
            assert v == fixed[..|v|];
            assert fixed[8 + HMAC_LEN..] == caps;
            assert v[8 + HMAC_LEN..] == fixed[8 + HMAC_LEN..][..|v| - 8 - HMAC_LEN];
          }
          assert caps + [] == caps;
          ReadStrOfPrefix(utf8, r.capabilities, [], v[8 + HMAC_LEN..]);
        }
      }
    }
  }

  // ---- Handshake acknowledgement ----

  datatype HandshakeReply = HandshakeReply(sessionId: Text, heartbeatMin: U32, heartbeatMax: U32)

  function EncodeReply(a: HandshakeReply): seq<Byte> {
    Str(a.sessionId) + (PutU32(a.heartbeatMin) + PutU32(a.heartbeatMax))
  }

  function DecodeReply(utf8: Utf8, p: seq<Byte>): Result<HandshakeReply> {
    if |p| < 2 then Err(TooShort)
    else
      var n := U16At(p, 0);
      if |p| - 2 < n + 8 then Err(TooShort)
      else if !utf8(p[2..2 + n]) then Err(InvalidText)
      else Ok(HandshakeReply(p[2..2 + n], U32At(p, 2 + n), U32At(p, 6 + n)))
  }

  lemma ReplyFields(a: HandshakeReply, more: seq<Byte>)
    requires Fits(a.sessionId)
    ensures var p, n := EncodeReply(a) + more, |a.sessionId|;
      && U16At(p, 0) == n && p[2..2 + n] == a.sessionId
      && U32At(p, 2 + n) == a.heartbeatMin && U32At(p, 6 + n) == a.heartbeatMax
  {
    hide PutU32, U32At, U16At, PutU16;
    var p, n := EncodeReply(a) + more, |a.sessionId|;
    var tail := PutU32(a.heartbeatMin) + PutU32(a.heartbeatMax) + more;
    assert p == Str(a.sessionId) + tail;
    assert p[0..2] == PutU16(n) && p[2..2 + n] == a.sessionId;
    assert p[2 + n..6 + n] == PutU32(a.heartbeatMin) && p[6 + n..10 + n] == PutU32(a.heartbeatMax);
    U16Field(p, 0, n);
    U32Field(p, 2 + n, a.heartbeatMin);
    U32Field(p, 6 + n, a.heartbeatMax);
  }

  lemma ReplyRoundTripIff(utf8: Utf8, a: HandshakeReply)
    requires utf8(a.sessionId)
    ensures DecodeReply(utf8, EncodeReply(a)) == Ok(a) <==> Fits(a.sessionId)
  {
    hide PutU32, U32At;
    if Fits(a.sessionId) {
      ReplyFields(a, []);
      assert EncodeReply(a) + [] == EncodeReply(a);
    }
  }

  lemma ReplyPrefixTooShort(utf8: Utf8, a: HandshakeReply, p: seq<Byte>)
    requires Fits(a.sessionId) && p < EncodeReply(a)
    ensures DecodeReply(utf8, p) == Err(TooShort)
  {
    hide PutU32, U32At;
    ReplyFields(a, []);
    assert EncodeReply(a) + [] == EncodeReply(a);
    if |p| >= 2 {
      assert U16At(p, 0) == U16At(EncodeReply(a), 0);
    }
  }

  function RequestFrame(r: HandshakeRequest): Frame {
    NewControl(FrameType.HandshakeReq, EncodeRequest(r))
  }

  function ReplyFrame(a: HandshakeReply): Frame {
    NewControl(FrameType.HandshakeAck, EncodeReply(a))
  }

  function ParseRequest(utf8: Utf8, f: Frame): Result<HandshakeRequest> {
    if f.frameType != FrameType.HandshakeReq then Err(WrongType(Code(f.frameType)))
    else DecodeRequest(utf8, f.payload)
  }

  function ParseReply(utf8: Utf8, f: Frame): Result<HandshakeReply> {
    if f.frameType != FrameType.HandshakeAck then Err(WrongType(Code(f.frameType)))
    else DecodeReply(utf8, f.payload)
  }

  /** A handshake crosses the wire: encoded, framed, padded by the sender, decoded and parsed. */
  lemma HandshakeCrosses(utf8: Utf8, r: HandshakeRequest, a: HandshakeReply, padding: seq<Byte>, rest: seq<Byte>)
    requires ValidRequest(utf8, r) && RequestFits(r) && utf8(a.sessionId) && Fits(a.sessionId)
    requires |padding| < U16_SIZE
    ensures var d := Decode(Encode(RequestFrame(r).(padding := padding)) + rest);
      d.Got? && ParseRequest(utf8, d.frame) == Ok(r)
    ensures var d := Decode(Encode(ReplyFrame(a).(padding := padding)) + rest);
      d.Got? && ParseReply(utf8, d.frame) == Ok(a)
  {
    hide Decode, Encode, DecodeRequest, DecodeReply;
    RequestRoundTripIff(utf8, r);
    ReplyRoundTripIff(utf8, a);
    DecodeEncode(RequestFrame(r).(padding := padding), rest);
    DecodeEncode(ReplyFrame(a).(padding := padding), rest);
  }

  // ---- STREAM_OPEN ----

  function BuildStreamOpen(streamId: U32, target: Text, peer: Text): Frame {
    NewFrame(FrameType.StreamOpen, streamId, Str(target) + Str(peer))
  }

  datatype OpenRequest = OpenRequest(target: Text, peer: Text)

  function ParseStreamOpen(utf8: Utf8, lossy: Text -> Text, p: seq<Byte>): Result<OpenRequest> {
    match ReadStr(utf8, p)
    case Err(e) => Err(e)
    case Ok(t) =>
      var n := if |t.rest| >= 2 then U16At(t.rest, 0) else 0;
      if |t.rest| >= 2 && |t.rest| - 2 >= n then Ok(OpenRequest(t.text, lossy(t.rest[2..2 + n])))
      else Ok(OpenRequest(t.text, []))
  }

  /**
   * Target and peer come back exactly when both lengths fit. The last precondition is what the lossy
   * conversion does to a cut valid text: at most the last character is replaced, by three bytes.
   */
  lemma StreamOpenRoundTripIff(utf8: Utf8, lossy: Text -> Text, streamId: U32, target: Text, peer: Text)
    requires utf8(target) && lossy(peer) == peer
    requires forall n :: 0 <= n <= |peer| ==> |lossy(peer[..n])| <= n + 2
    ensures var payload := BuildStreamOpen(streamId, target, peer).payload;
      ParseStreamOpen(utf8, lossy, payload) == Ok(OpenRequest(target, peer)) <==> Fits(target) && Fits(peer)
  {
    hide PutU16;
    if Fits(target) {
      ReadStrOfStr(utf8, target, Str(peer));
      var n := |peer| % U16_SIZE;
      assert Str(peer)[0..2] == PutU16(n);
      U16Field(Str(peer), 0, n);
      assert Str(peer)[2..2 + n] == peer[..n];
      assert Fits(peer) ==> peer[..n] == peer;
    }
  }

  /**
   * A cut STREAM_OPEN payload is rejected only while the target is incomplete; once the target is whole
   * it parses, without a peer, as a payload of a server that sends none.
   */
  lemma StreamOpenPrefix(utf8: Utf8, lossy: Text -> Text, target: Text, peer: Text, p: seq<Byte>)
    requires Fits(target) && Fits(peer) && utf8(target) && p < Str(target) + Str(peer)
    ensures ParseStreamOpen(utf8, lossy, p)
         == if |p| < |Str(target)| then Err(TooShort) else Ok(OpenRequest(target, []))
  {
    hide PutU16, Str, U16At;
    ReadStrOfPrefix(utf8, target, Str(peer), p);
    if |p| >= |Str(target)| {
      var q :| q < Str(peer) && p == Str(target) + q && ReadStr(utf8, p) == Ok(Parsed(target, q));
      if |q| >= 2 {
        ReadStrOfStr(_ => true, peer, []);
        assert Str(peer) + [] == Str(peer);
        FieldsOfPrefix(q, Str(peer)[|q|..], 0);
        assert q + Str(peer)[|q|..] == Str(peer);
      }
    }
  }

  // ---- STREAM_OPEN_ACK ----

  function BuildStreamOpenAck(streamId: U32, ok: bool): Frame {
    NewFrame(FrameType.StreamOpenAck, streamId, [if ok then 0 else 1] + PutU32(streamId))
  }

  datatype OpenReply = OpenReply(ok: bool, streamId: U32)

  function ParseStreamOpenAck(p: seq<Byte>): Result<OpenReply> {
    if |p| < 5 then Err(TooShort) else Ok(OpenReply(p[0] == 0, U32At(p, 1)))
  }

  lemma StreamOpenAckRoundTrip(streamId: U32, ok: bool)
    ensures ParseStreamOpenAck(BuildStreamOpenAck(streamId, ok).payload) == Ok(OpenReply(ok, streamId))
  {
    var p := BuildStreamOpenAck(streamId, ok).payload;
    assert p[1..5] == PutU32(streamId);
    U32Field(p, 1, streamId);
  }

  // ---- STREAM_DATA, STREAM_CLOSE ----

  function BuildStreamData(streamId: U32, data: seq<Byte>): Frame {
    NewFrame(FrameType.StreamData, streamId, data)
  }

  function BuildStreamClose(streamId: U32): Frame {
    NewFrame(FrameType.StreamClose, streamId, [])
  }

  // ---- ERROR ----

  function BuildError(reason: Text): Frame {
    NewControl(FrameType.Error, Str(reason))
  }

  /** The length is read without a check, so the source panics on fewer than two bytes. */
  function ParseError(lossy: Text -> Text, p: seq<Byte>): Result<Text>
    requires |p| >= 2
  {
    if |p| - 2 < U16At(p, 0) then Err(Truncated) else Ok(lossy(p[2..2 + U16At(p, 0)]))
  }

  lemma ErrorRoundTrip(lossy: Text -> Text, reason: Text)
    requires Fits(reason)
    ensures ParseError(lossy, BuildError(reason).payload) == Ok(lossy(reason))
  {
    ReadStrOfStr(_ => true, reason, []);
    assert Str(reason) + [] == Str(reason);
  }

  // ---- UDP_DATAGRAM ----

  function BuildUdpDatagram(streamId: U32, target: Text, data: seq<Byte>): Frame {
    NewFrame(FrameType.UdpDatagram, streamId, Str(target) + data)
  }

  function ParseUdpDatagram(utf8: Utf8, p: seq<Byte>): Result<Parsed> {
    ReadStr(utf8, p)
  }

  /** Datagram and target come back exactly when the target's length fits its field. */
  lemma UdpDatagramRoundTripIff(utf8: Utf8, streamId: U32, target: Text, data: seq<Byte>)
    requires utf8(target)
    ensures ParseUdpDatagram(utf8, BuildUdpDatagram(streamId, target, data).payload) == Ok(Parsed(target, data))
            <==> Fits(target)
  {
    if Fits(target) {
      ReadStrOfStr(utf8, target, data);
    }
  }

  /** The payloads of tasks cross the wire as the handshake does: framed, padded, decoded and parsed. */
  lemma TaskPayloadsCross(
      utf8: Utf8, lossy: Text -> Text, x: U32, ok: bool, target: Text, peer: Text, data: seq<Byte>,
      padding: seq<Byte>, rest: seq<Byte>)
    requires utf8(target) && Fits(target) && Fits(peer) && lossy(peer) == peer
    requires |padding| < U16_SIZE && |data| < U32_SIZE - U16_SIZE - 2
    ensures var d := Decode(Encode(BuildStreamOpen(x, target, peer).(padding := padding)) + rest);
      d.Got? && d.frame.streamId == x && ParseStreamOpen(utf8, lossy, d.frame.payload) == Ok(OpenRequest(target, peer))
    ensures var d := Decode(Encode(BuildStreamOpenAck(x, ok).(padding := padding)) + rest);
      d.Got? && d.frame.streamId == x && ParseStreamOpenAck(d.frame.payload) == Ok(OpenReply(ok, x))
    ensures var d := Decode(Encode(BuildUdpDatagram(x, target, data).(padding := padding)) + rest);
      d.Got? && d.frame.streamId == x && ParseUdpDatagram(utf8, d.frame.payload) == Ok(Parsed(target, data))
    ensures var d := Decode(Encode(BuildStreamData(x, data).(padding := padding)) + rest);
      d.Got? && d.frame.streamId == x && d.frame.payload == data
  {
    hide Decode, Encode, ReadStr, Str, ParseStreamOpenAck;
    OpenParses(utf8, lossy, x, target, peer);
    StreamOpenAckRoundTrip(x, ok);
    UdpDatagramRoundTripIff(utf8, x, target, data);
    DecodeEncode(BuildStreamOpen(x, target, peer).(padding := padding), rest);
    DecodeEncode(BuildStreamOpenAck(x, ok).(padding := padding), rest);
    DecodeEncode(BuildUdpDatagram(x, target, data).(padding := padding), rest);
    DecodeEncode(BuildStreamData(x, data).(padding := padding), rest);
  }

  /** A STREAM_OPEN whose texts fit parses, whatever the lossy conversion does to other texts. */
  lemma OpenParses(utf8: Utf8, lossy: Text -> Text, x: U32, target: Text, peer: Text)
    requires utf8(target) && Fits(target) && Fits(peer) && lossy(peer) == peer
    ensures ParseStreamOpen(utf8, lossy, BuildStreamOpen(x, target, peer).payload) == Ok(OpenRequest(target, peer))
  {
    hide PutU16;
    ReadStrOfStr(utf8, target, Str(peer));
    assert Str(peer)[0..2] == PutU16(|peer|);
    U16Field(Str(peer), 0, |peer|);
    assert Str(peer)[2..2 + |peer|] == peer;
  }

  // ---- Heartbeats ----

  function HeartbeatFrame(now: U64): Frame {
    NewControl(FrameType.Heartbeat, PutU64(now))
  }

  function HeartbeatAckFrame(timestamp: U64): Frame {
    NewControl(FrameType.HeartbeatAck, PutU64(timestamp))
  }

  function ParseTimestamp(p: seq<Byte>): Result<U64> {
    if |p| < 8 then Err(TooShort) else Ok(U64At(p, 0))
  }

  /** The acknowledgement echoes the timestamp of the heartbeat it answers. */
  lemma HeartbeatEchoes(now: U64)
    ensures ParseTimestamp(HeartbeatFrame(now).payload) == Ok(now)
    ensures ParseTimestamp(HeartbeatAckFrame(now).payload) == Ok(now)
  {
    var p := PutU64(now);
    assert p[0..8] == p;
    U64Field(p, 0, now);
  }
}
