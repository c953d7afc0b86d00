/**
 * Where every field stands on the wire, in plain numbers: magic, type codes, little-endian lengths and ids, the
 * order of the fields, and one whole frame with its checksum (src/protocol/frame.rs:14-60 and 117-130,
 * src/protocol/handshake.rs, src/protocol/multiplex.rs, src/protocol/heartbeat.rs).
 */
module Layouts {
  import opened Bytes
  import opened Frames
  import opened Payloads
  import opened Crc32Values
  import Crc32

  /** The number that bytes stand for, low byte first. */
  function LittleEndian(s: seq<Byte>): nat {
    if s == [] then 0 else (s[0] as int) + 256 * LittleEndian(s[1..])
  }

  lemma OneMoreByte(b: Byte, rest: seq<Byte>)
    ensures LittleEndian([b] + rest) == b as int + 256 * LittleEndian(rest)
  {
    assert ([b] + rest)[1..] == rest;
  }

  lemma TwoBytes(n: U16)
    ensures LittleEndian(PutU16(n)) == n
  {
    var s := PutU16(n);
    assert s == [s[0]] + [s[1]] && [s[1]] == [s[1]] + [];
    OneMoreByte(s[0], [s[1]]);
    OneMoreByte(s[1], []);
  }

  lemma FourBytes(n: U32)
    ensures LittleEndian(PutU32(n)) == n
  {
    var s := PutU32(n);
    assert s == [s[0]] + [s[1], s[2], s[3]] && [s[1], s[2], s[3]] == [s[1]] + [s[2], s[3]];
    assert [s[2], s[3]] == [s[2]] + [s[3]] && [s[3]] == [s[3]] + [];
    FourBytesAre(s[0], s[1], s[2], s[3]);
  }

  lemma FourBytesAre(a: Byte, b: Byte, c: Byte, d: Byte)
    ensures LittleEndian([a] + [b, c, d]) == a as int + 0x100 * b as int + 0x1_0000 * c as int + 0x100_0000 * d as int
  {
    OneMoreByte(a, [b, c, d]);
    assert [b, c, d] == [b] + [c, d] && [c, d] == [c] + [d] && [d] == [d] + [];
    OneMoreByte(b, [c, d]);
    OneMoreByte(c, [d]);
    OneMoreByte(d, []);
  }

  lemma LittleEndianOf(s: seq<Byte>, b: seq<Byte>)
    requires |s| == 4
    ensures LittleEndian(s + b) == LittleEndian(s) + 0x1_0000_0000 * LittleEndian(b)
  {
    hide LittleEndian;
    assert s == [s[0]] + [s[1], s[2], s[3]];
    FourBytesAre(s[0], s[1], s[2], s[3]);
    var d := [s[3]] + b;
    var c := [s[2]] + d;
    assert s + b == [s[0]] + ([s[1]] + c);
    OneMoreByte(s[0], [s[1]] + c);
    OneMoreByte(s[1], c);
    OneMoreByte(s[2], d);
    OneMoreByte(s[3], b);
  }

  lemma EightBytes(n: U64)
    ensures LittleEndian(PutU64(n)) == n
  {
    hide PutU32, LittleEndian;
    FourBytes(n % U32_SIZE);
    FourBytes(n / U32_SIZE);
    LittleEndianOf(PutU32(n % U32_SIZE), PutU32(n / U32_SIZE));
  }

  lemma TypeCodes()
    ensures Code(HandshakeReq) == 1 && Code(HandshakeAck) == 2 && Code(AuthFail) == 3
    ensures Code(StreamOpen) == 16 && Code(StreamOpenAck) == 17 && Code(StreamData) == 18 && Code(StreamClose) == 19
    ensures Code(Heartbeat) == 32 && Code(HeartbeatAck) == 33 && Code(UdpDatagram) == 48
    ensures Code(Probe) == 254 && Code(FrameType.Error) == 255
  {
  }

  /** The whole layout of a frame that fits. */
  lemma FrameLayout(f: Frame)
    requires Encodable(f)
    ensures var e, n, p := Encode(f), |f.payload|, |f.padding|;
      && |e| == 18 + n + p
      && e[0] == 0x3C && e[1] == 0x5A && e[2] == 1 && e[3] == Code(f.frameType)
      && LittleEndian(e[4..8]) == f.streamId && LittleEndian(e[8..12]) == n
      && e[12..12 + n] == f.payload
      && LittleEndian(e[12 + n..14 + n]) == p && e[14 + n..14 + n + p] == f.padding
      && LittleEndian(e[14 + n + p..]) == Crc32.Hash(e[..14 + n + p])
  {
    hide Crc32.Hash, Code, PutU32, LittleEndian, Header;
    var e, n, p := Encode(f), |f.payload|, |f.padding|;
    EncodingLayout(f);
    HeaderLayout(f);
    var h := e[..12];
    assert h[0..2] == PutU16(MAGIC) && e[0] == h[0..2][0] && e[1] == h[0..2][1];
    assert e[2] == h[2] && e[3] == h[3];
    assert e[4..8] == h[4..8] && e[8..12] == h[8..12];
    FourBytes(f.streamId);
    FourBytes(n);
    TwoBytes(p);
    FourBytes(Crc32.Hash(Body(f)));
    hide PutU16;
    assert |Body(f)| == 14 + n + p;
  }

  // ---- Payloads ----

  /** A text field: two bytes of length, then the text. */
  ghost predicate TextField(s: seq<Byte>, t: Text) {
    |s| == 2 + |t| && LittleEndian(s[..2]) == |t| && s[2..] == t
  }

  lemma TextIsField(t: Text)
    requires Fits(t)
    ensures TextField(Str(t), t)
  {
    hide PutU16, LittleEndian;
    TwoBytes(|t|);
    assert Str(t)[..2] == PutU16(|t|);
  }

  lemma OpenLayout(x: U32, target: Text, peer: Text)
    requires Fits(target) && Fits(peer)
    ensures var f, n := BuildStreamOpen(x, target, peer), 2 + |target|;
      && f.frameType == FrameType.StreamOpen && f.streamId == x && |f.payload| == n + 2 + |peer|
      && TextField(f.payload[..n], target) && TextField(f.payload[n..], peer)
  {
    hide TextField, Str;
    TextIsField(target);
    TextIsField(peer);
    var p := Str(target) + Str(peer);
    assert p[..|Str(target)|] == Str(target) && p[|Str(target)|..] == Str(peer);
  }

  /** The status byte is zero for yes. */
  lemma AckLayout(x: U32, ok: bool)
    ensures var f := BuildStreamOpenAck(x, ok);
      && f.frameType == FrameType.StreamOpenAck && f.streamId == x && |f.payload| == 5
      && (f.payload[0] == 0 <==> ok) && (f.payload[0] == 1 <==> !ok) && LittleEndian(f.payload[1..]) == x
  {
    FourBytes(x);
    hide PutU32, LittleEndian;
    assert BuildStreamOpenAck(x, ok).payload[1..] == PutU32(x);
  }

  lemma DatagramLayout(x: U32, target: Text, data: seq<Byte>)
    requires Fits(target)
    ensures var f, n := BuildUdpDatagram(x, target, data), 2 + |target|;
      && f.frameType == FrameType.UdpDatagram && f.streamId == x && |f.payload| == n + |data|
      && TextField(f.payload[..n], target) && f.payload[n..] == data
  {
    hide TextField, Str;
    TextIsField(target);
    var p := Str(target) + data;
    assert p[..|Str(target)|] == Str(target) && p[|Str(target)|..] == data;
  }

  /** Control frames carry the reserved stream id. */
  lemma ControlLayout(now: U64, reason: Text)
    requires Fits(reason)
    ensures HeartbeatFrame(now).streamId == 0xFFFF_FFFF && HeartbeatFrame(now).frameType == FrameType.Heartbeat
    ensures HeartbeatAckFrame(now).streamId == 0xFFFF_FFFF && HeartbeatAckFrame(now).frameType == FrameType.HeartbeatAck
    ensures |HeartbeatFrame(now).payload| == 8 && LittleEndian(HeartbeatFrame(now).payload) == now
    ensures HeartbeatAckFrame(now).payload == HeartbeatFrame(now).payload
    ensures BuildError(reason).streamId == 0xFFFF_FFFF && BuildError(reason).frameType == FrameType.Error
    ensures TextField(BuildError(reason).payload, reason)
  {
    hide PutU64, TextField, Str, LittleEndian;
    EightBytes(now);
    TextIsField(reason);
  }

  /** Client id, version, timestamp, 32 bytes of HMAC, capabilities. */
  lemma RequestLayout(utf8: Utf8, r: HandshakeRequest)
    requires ValidRequest(utf8, r) && RequestFits(r)
    ensures var e := EncodeRequest(r);
      var i := 2 + |r.clientId|;
      var j := i + 2 + |r.version|;
      && |e| == j + 42 + |r.capabilities|
      && TextField(e[..i], r.clientId) && TextField(e[i..j], r.version)
      && LittleEndian(e[j..j + 8]) == r.timestamp && e[j + 8..j + 40] == r.hmac
      && TextField(e[j + 40..], r.capabilities)
  {
    hide PutU64, TextField, Str, LittleEndian;
    EightBytes(r.timestamp);
    TextIsField(r.clientId);
    TextIsField(r.version);
    TextIsField(r.capabilities);
    var e, i := EncodeRequest(r), |Str(r.clientId)|;
    var j := i + |Str(r.version)|;
    assert e == Str(r.clientId) + Str(r.version) + PutU64(r.timestamp) + r.hmac + Str(r.capabilities);
    assert e[..i] == Str(r.clientId) && e[i..j] == Str(r.version) && e[j..j + 8] == PutU64(r.timestamp);
    assert e[j + 8..j + 40] == r.hmac && e[j + 40..] == Str(r.capabilities);
  }

  /** Session id, then the shortest and the longest heartbeat interval. */
  lemma ReplyLayout(a: HandshakeReply)
    requires Fits(a.sessionId)
    ensures var e, i := EncodeReply(a), 2 + |a.sessionId|;
      && |e| == i + 8 && TextField(e[..i], a.sessionId)
      && LittleEndian(e[i..i + 4]) == a.heartbeatMin && LittleEndian(e[i + 4..]) == a.heartbeatMax
  {
    hide PutU32, TextField, Str, LittleEndian;
    FourBytes(a.heartbeatMin);
    FourBytes(a.heartbeatMax);
    TextIsField(a.sessionId);
    var e, i := EncodeReply(a), |Str(a.sessionId)|;
    assert e[..i] == Str(a.sessionId) && e[i..i + 4] == PutU32(a.heartbeatMin) && e[i + 4..] == PutU32(a.heartbeatMax);
  }

  // ---- One whole frame ----

  const CLOSE_OF_TWO: seq<Byte> := [0x3C, 0x5A, 0x01, 0x13, 0x02, 0x00, 0x00, 0x00, 0x00, 0x00, 0x00, 0x00, 0x00, 0x00]

  function CloseWords(): seq<bv32> {
    [0x3C, 0x5A, 0x01, 0x13, 0x02, 0x00, 0x00, 0x00, 0x00, 0x00, 0x00, 0x00, 0x00, 0x00]
  }

  lemma FirstWords()
    ensures ShiftedBy(0xFFFF_FFFF ^ 0x3C, 8) == 0x292_6CF5
    ensures ShiftedBy(0x292_6CF5 ^ 0x5A, 8) == 0x466B_2C15
    ensures ShiftedBy(0x466B_2C15 ^ 0x1, 8) == 0x1A9C_BF51
    ensures ShiftedBy(0x1A9C_BF51 ^ 0x13, 8) == 0x98C8_BC03
    ensures ShiftedBy(0x98C8_BC03 ^ 0x2, 8) == 0x779F_F82A
  {
  }

  lemma MoreWords()
    ensures ShiftedBy(0x779F_F82A ^ 0x0, 8) == 0xDBCC_562E
    ensures ShiftedBy(0xDBCC_562E ^ 0x0, 8) == 0xDC0D_C199
    ensures ShiftedBy(0xDC0D_C199 ^ 0x0, 8) == 0x890F_2621
    ensures ShiftedBy(0x890F_2621 ^ 0x0, 8) == 0x4CE0_1F78
    ensures ShiftedBy(0x4CE0_1F78 ^ 0x0, 8) == 0x5E92_1911
  {
  }

  lemma LastWords()
    ensures ShiftedBy(0x5E92_1911 ^ 0x0, 8) == 0x6AEE_B2EB
    ensures ShiftedBy(0x6AEE_B2EB ^ 0x0, 8) == 0x37B2_D542
    ensures ShiftedBy(0x37B2_D542 ^ 0x0, 8) == 0x98E5_9269
    ensures ShiftedBy(0x98E5_9269 ^ 0x0, 8) == 0x34F6_3C6E
  {
  }

  lemma MagicWords()
    ensures ByteWord(0x3C, 0x3C) && ByteWord(0x5A, 0x5A)
  {
  }

  lemma CloseByteWords()
    ensures ByteWord(0x3C, 0x3C) && ByteWord(0x5A, 0x5A) && ByteWord(0x01, 0x01)
  {
    MagicWords();
  }

  lemma MoreByteWords()
    ensures ByteWord(0x13, 0x13) && ByteWord(0x02, 0x02) && ByteWord(0x00, 0x00)
  {
  }

  lemma FedOne(b: bv32, words: seq<bv32>)
    requires words != []
    ensures FedWords(b, words) == FedWords(ShiftedBy(b ^ words[0], 8), words[1..])
  {
  }

  lemma FedBehind(w: seq<bv32>)
    requires w == CloseWords()
    ensures FedWords(0xDC0D_C199, w[7..]) == 0x34F6_3C6E
  {
    hide ShiftedBy;
    MoreWords();
    LastWords();
    assert FedWords(0x34F6_3C6E, w[14..]) == 0x34F6_3C6E;
    assert w[13..][1..] == w[14..] && FedWords(0x98E5_9269, w[13..]) == 0x34F6_3C6E;
    assert w[12..][1..] == w[13..] && FedWords(0x37B2_D542, w[12..]) == 0x34F6_3C6E;
    assert w[11..][1..] == w[12..] && FedWords(0x6AEE_B2EB, w[11..]) == 0x34F6_3C6E;
    assert w[10..][1..] == w[11..] && FedWords(0x5E92_1911, w[10..]) == 0x34F6_3C6E;
    assert w[9..][1..] == w[10..] && FedWords(0x4CE0_1F78, w[9..]) == 0x34F6_3C6E;
    assert w[8..][1..] == w[9..] && FedWords(0x890F_2621, w[8..]) == 0x34F6_3C6E;
    assert w[7..][1..] == w[8..] && FedWords(0xDC0D_C199, w[7..]) == 0x34F6_3C6E;
  }

  lemma FedClose(w: seq<bv32>)
    requires w == CloseWords()
    ensures FedWords(0xFFFF_FFFF, w) == 0x34F6_3C6E
  {
    hide ShiftedBy, FedWords;
    FirstWords();
    MoreWords();
    FedBehind(w);
    assert w[6..][1..] == w[7..];
    FedOne(0xDBCC_562E, w[6..]);
    assert w[5..][1..] == w[6..];
    FedOne(0x779F_F82A, w[5..]);
    assert w[4..][1..] == w[5..];
    FedOne(0x98C8_BC03, w[4..]);
    assert w[3..][1..] == w[4..];
    FedOne(0x1A9C_BF51, w[3..]);
    assert w[2..][1..] == w[3..];
    FedOne(0x466B_2C15, w[2..]);
    assert w[1..][1..] == w[2..];
    FedOne(0x292_6CF5, w[1..]);
    assert w[0..][1..] == w[1..];
    FedOne(0xFFFF_FFFF, w[0..]);
    assert w[0..] == w;
  }

  lemma CloseNumber()
    ensures Agree(Crc32.BitsOf(0x34F6_3C6E, 32), 0x34F6_3C6E)
  {
    WordOf(0x34F6_3C6E, 0x34F6_3C6E, 0x34_F63C, 0x34_F63C, 0x34F6, 0x34F6, 0x34, 0x34);
  }

  lemma CloseHash()
    ensures Crc32.Hash(CLOSE_OF_TWO) == 0xCB09_C391
  {
    hide Agree, Crc32.Feed, FedWords, Crc32.BitsOf, Crc32.MessageBits, ByteWord;
    OnesAgree();
    CloseByteWords();
    MoreByteWords();
    FeedWords(Crc32.ONES, 0xFFFF_FFFF, CLOSE_OF_TWO, CloseWords());
    FedClose(CloseWords());
    CloseNumber();
    SameRegister(Crc32.Feed(Crc32.ONES, Crc32.MessageBits(CLOSE_OF_TWO)), Crc32.BitsOf(0x34F6_3C6E, 32), 0x34F6_3C6E);
    InvertedNumber(0x34F6_3C6E);
  }

  /** STREAM_CLOSE for stream 2, byte for byte. */
  lemma CloseOfTwo()
    ensures Encode(BuildStreamClose(2)) == CLOSE_OF_TWO + [0x91, 0xC3, 0x09, 0xCB]
  {
    hide Crc32.Hash;
    CloseHash();
    assert Body(BuildStreamClose(2)) == CLOSE_OF_TWO;
  }
}
