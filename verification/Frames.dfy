/** The frame codec of src/protocol/frame.rs: layout, encoder, decoder and their agreement. */
module Frames {
  import opened Bytes
  import Crc32

  const MAGIC: U16 := 0x5A3C
  const VERSION: Byte := 0x01
  const CONTROL_STREAM_ID: U32 := 0xFFFF_FFFF
  const HEADER_LEN: nat := 12
  const CRC_LEN: nat := 4

  datatype FrameType =
    | HandshakeReq
    | HandshakeAck
    | AuthFail
    | StreamOpen
    | StreamOpenAck
    | StreamData
    | StreamClose
    | Heartbeat
    | HeartbeatAck
    | UdpDatagram
    | Probe
    | Error

  function Code(t: FrameType): Byte {
    match t
    case HandshakeReq => 0x01
    case HandshakeAck => 0x02
    case AuthFail => 0x03
    case StreamOpen => 0x10
    case StreamOpenAck => 0x11
    case StreamData => 0x12
    case StreamClose => 0x13
    case Heartbeat => 0x20
    case HeartbeatAck => 0x21
    case UdpDatagram => 0x30
    case Probe => 0xFE
    case Error => 0xFF
  }

  function TypeOf(code: Byte): (t: Option<FrameType>)
    ensures forall u :: t == Some(u) <==> Code(u) == code
  {
    if code == 0x01 then Some(HandshakeReq)
    else if code == 0x02 then Some(HandshakeAck)
    else if code == 0x03 then Some(AuthFail)
    else if code == 0x10 then Some(StreamOpen)
    else if code == 0x11 then Some(StreamOpenAck)
    else if code == 0x12 then Some(StreamData)
    else if code == 0x13 then Some(StreamClose)
    else if code == 0x20 then Some(Heartbeat)
    else if code == 0x21 then Some(HeartbeatAck)
    else if code == 0x30 then Some(UdpDatagram)
    else if code == 0xFE then Some(Probe)
    else if code == 0xFF then Some(Error)
    else None
  }

  datatype ProtocolError =
    | InvalidMagic
    | InvalidCrc
    | Incomplete
    | InvalidFrameType(code: Byte)
    | InvalidVersion(version: Byte)

  datatype Frame = Frame(
    version: Byte,
    frameType: FrameType,
    streamId: U32,
    payload: seq<Byte>,
    padding: seq<Byte>)

  function NewFrame(t: FrameType, streamId: U32, payload: seq<Byte>): Frame {
    Frame(VERSION, t, streamId, payload, [])
  }

  function NewControl(t: FrameType, payload: seq<Byte>): Frame {
    Frame(VERSION, t, CONTROL_STREAM_ID, payload, [])
  }

  /** Frames whose lengths fit their fields and whose version is the one the decoder knows. */
  predicate Encodable(f: Frame) {
    f.version == VERSION && |f.payload| < U32_SIZE && |f.padding| < U16_SIZE
  }

  // ---- Encoder. Both length casts truncate, as the casts in the source do. ----

  function Header(f: Frame): (h: seq<Byte>)
    ensures |h| == HEADER_LEN
  {
    PutU16(MAGIC) + [f.version, Code(f.frameType)] + PutU32(f.streamId) + PutU32(|f.payload| % U32_SIZE)
  }

  function Body(f: Frame): (b: seq<Byte>)
    ensures |b| == HEADER_LEN + |f.payload| + 2 + |f.padding|
  {
    Header(f) + f.payload + PutU16(|f.padding| % U16_SIZE) + f.padding
  }

  function Encode(f: Frame): (e: seq<Byte>)
    ensures |e| == HEADER_LEN + |f.payload| + 2 + |f.padding| + CRC_LEN
  {
    Body(f) + PutU32(Crc32.Hash(Body(f)))
  }

  // ---- Decoder ----

  datatype Decoded = NeedMore | Bad(error: ProtocolError) | Got(frame: Frame, consumed: nat)

  function PaddingOffset(buf: seq<Byte>): nat
    requires HEADER_LEN <= |buf|
  {
    HEADER_LEN + U32At(buf, 8)
  }

  function Total(buf: seq<Byte>): nat
    requires HEADER_LEN <= |buf| && PaddingOffset(buf) + 2 <= |buf|
  {
    PaddingOffset(buf) + 2 + U16At(buf, PaddingOffset(buf)) + CRC_LEN
  }

  function Decode(buf: seq<Byte>): (d: Decoded)
    ensures d.Got? ==> 18 <= d.consumed <= |buf|
  {
    if |buf| < HEADER_LEN then NeedMore
    else if U16At(buf, 0) != MAGIC then Bad(InvalidMagic)
    else if buf[2] != VERSION then Bad(InvalidVersion(buf[2]))
    else if TypeOf(buf[3]) == None then Bad(InvalidFrameType(buf[3]))
    else if |buf| < PaddingOffset(buf) + 2 then NeedMore
    else if |buf| < Total(buf) then NeedMore
    else if Crc32.Hash(buf[..Total(buf) - CRC_LEN]) != U32At(buf, Total(buf) - CRC_LEN) then Bad(InvalidCrc)
    else
      var off := PaddingOffset(buf);
      Got(Frame(buf[2], TypeOf(buf[3]).value, U32At(buf, 4), buf[HEADER_LEN..off],
                buf[off + 2..Total(buf) - CRC_LEN]), Total(buf))
  }

  /** The growable read and write buffer. */
  class ByteBuffer {
    var data: seq<Byte>

    constructor ()
      ensures data == []
    {
      data := [];
    }

    method Clear()
      modifies this
      ensures data == []
    {
      data := [];
    }

    method Put(bytes: seq<Byte>)
      modifies this
      ensures data == old(data) + bytes
    {
      data := data + bytes;
    }

    method Advance(n: nat)
      requires n <= |data|
      modifies this
      ensures data == old(data)[n..]
    {
      data := data[n..];
    }

    /** Appends the encoding of `f`; what was in the buffer before stays in front of it. */
    method Append(f: Frame)
      modifies this
      ensures data == old(data) + Encode(f)
    {
      hide Crc32.Hash, Code, PutU16, PutU32;
      ghost var before := data;
      var start := |data|;
      Put(PutU16(MAGIC));
      Put([f.version]);
      Put([Code(f.frameType)]);
      Put(PutU32(f.streamId));
      Put(PutU32(|f.payload| % U32_SIZE));
      assert data == before + Header(f) by {
        assert PutU16(MAGIC) + [f.version, Code(f.frameType)] == PutU16(MAGIC) + [f.version] + [Code(f.frameType)];
      }
      PutRest(f, start, before);
    }

    /** The part of `Append` behind the header. */
    method PutRest(f: Frame, start: nat, ghost before: seq<Byte>)
      requires start == |before| && data == before + Header(f)
      modifies this
      ensures data == before + Encode(f)
    {
      hide Crc32.Hash, Header, PutU16, PutU32;
      Put(f.payload);
      Put(PutU16(|f.padding| % U16_SIZE));
      Put(f.padding);
      assert data[start..] == Body(f);
      var crc := Crc32.Hash(data[start..]);
      Put(PutU32(crc));
    }

    /** Takes one frame off the front of the buffer, or leaves the buffer alone. */
    method Take() returns (d: Decoded)
      modifies this
      ensures d == Decode(old(data))
      ensures d.Got? ==> d.consumed <= |old(data)|
      ensures data == if d.Got? then old(data)[d.consumed..] else old(data)
    {
      hide Crc32.Hash, TypeOf, Code, U16At, U32At;
      if |data| < HEADER_LEN {
        return NeedMore;
      }
      if U16At(data, 0) != MAGIC {
        return Bad(InvalidMagic);
      }
      var version := data[2];
      if version != VERSION {
        return Bad(InvalidVersion(version));
      }
      var frameType := TypeOf(data[3]);
      if frameType == None {
        return Bad(InvalidFrameType(data[3]));
      }
      var streamId := U32At(data, 4);
      var payloadLen := U32At(data, 8);
      var paddingLenOff := HEADER_LEN + payloadLen;
      if |data| < paddingLenOff + 2 {
        return NeedMore;
      }
      var paddingLen := U16At(data, paddingLenOff);
      var total := HEADER_LEN + payloadLen + 2 + paddingLen + CRC_LEN;
      if |data| < total {
        return NeedMore;
      }
      if Crc32.Hash(data[..total - CRC_LEN]) != U32At(data, total - CRC_LEN) {
        return Bad(InvalidCrc);
      }
      var payload := data[HEADER_LEN..HEADER_LEN + payloadLen];
      var padding := data[paddingLenOff + 2..paddingLenOff + 2 + paddingLen];
      Advance(total);
      d := Got(Frame(version, frameType.value, streamId, payload, padding), total);
    }
  }

  // ---- A definite answer does not change when more bytes arrive ----

  lemma FieldsOfPrefix(buf: seq<Byte>, more: seq<Byte>, i: nat)
    ensures i + 2 <= |buf| ==> U16At(buf + more, i) == U16At(buf, i)
    ensures i + 4 <= |buf| ==> U32At(buf + more, i) == U32At(buf, i)
  {
  }

  lemma DecodeStable(buf: seq<Byte>, more: seq<Byte>)
    requires !Decode(buf).NeedMore?
    ensures Decode(buf + more) == Decode(buf)
  {
    hide Crc32.Hash, TypeOf, Code;
    var all := buf + more;
    FieldsOfPrefix(buf, more, 0);
    FieldsOfPrefix(buf, more, 4);
    FieldsOfPrefix(buf, more, 8);
    assert all[2] == buf[2] && all[3] == buf[3];
    if U16At(buf, 0) == MAGIC && buf[2] == VERSION && TypeOf(buf[3]) != None {
      var off := PaddingOffset(buf);
      FieldsOfPrefix(buf, more, off);
      FieldsOfPrefix(buf, more, Total(buf) - CRC_LEN);
      assert all[..Total(buf) - CRC_LEN] == buf[..Total(buf) - CRC_LEN];
      assert all[HEADER_LEN..off] == buf[HEADER_LEN..off];
      assert all[off + 2..Total(buf) - CRC_LEN] == buf[off + 2..Total(buf) - CRC_LEN];
    }
  }

  // ---- The decoder accepts exactly the encodings ----

  lemma HeaderLayout(f: Frame)
    ensures var h := Header(f);
      && h[0..2] == PutU16(MAGIC) && h[2] == f.version && h[3] == Code(f.frameType)
      && h[4..8] == PutU32(f.streamId) && h[8..12] == PutU32(|f.payload| % U32_SIZE)
  {
    hide Code, PutU16, PutU32;
  }

  lemma EncodingLayout(f: Frame)
    ensures var e, off, end := Encode(f), HEADER_LEN + |f.payload|, |Body(f)|;
      && e[..HEADER_LEN] == Header(f) && e[HEADER_LEN..off] == f.payload
      && e[off..off + 2] == PutU16(|f.padding| % U16_SIZE) && e[off + 2..end] == f.padding
      && e[..end] == Body(f) && e[end..] == PutU32(Crc32.Hash(Body(f)))
  {
    hide Crc32.Hash, Header, PutU16, PutU32;
    var e, off, end := Encode(f), HEADER_LEN + |f.payload|, |Body(f)|;
    assert e[..end] == Body(f);
    assert e[..HEADER_LEN] == Body(f)[..HEADER_LEN];
    assert e[HEADER_LEN..off] == Body(f)[HEADER_LEN..off];
    assert e[off..off + 2] == Body(f)[off..off + 2];
    assert e[off + 2..end] == Body(f)[off + 2..end];
  }

  /** What the fields of an encoding read back as, whatever follows it. */
  lemma EncodingFields(f: Frame, rest: seq<Byte>)
    requires Encodable(f)
    ensures var buf := Encode(f) + rest;
      && U16At(buf, 0) == MAGIC && buf[2] == VERSION && buf[3] == Code(f.frameType)
      && U32At(buf, 4) == f.streamId && U32At(buf, 8) == |f.payload|
      && U16At(buf, HEADER_LEN + |f.payload|) == |f.padding|
      && U32At(buf, |Body(f)|) == Crc32.Hash(Body(f))
  {
    hide Crc32.Hash, Code, Header, Body, Encode, PutU16, PutU32, U16At, U32At;
    var e := Encode(f);
    var buf, h, off, end := e + rest, Header(f), HEADER_LEN + |f.payload|, |Body(f)|;
    HeaderLayout(f);
    EncodingLayout(f);
    assert buf[0..2] == e[..HEADER_LEN][0..2] && buf[4..8] == e[..HEADER_LEN][4..8];
    assert buf[8..12] == e[..HEADER_LEN][8..12];
    assert buf[2] == e[..HEADER_LEN][2] && buf[3] == e[..HEADER_LEN][3];
    assert buf[off..off + 2] == e[off..off + 2] && buf[end..end + 4] == e[end..];
    U16Field(buf, 0, MAGIC);
    U32Field(buf, 4, f.streamId);
    U32Field(buf, 8, |f.payload|);
    U16Field(buf, off, |f.padding|);
    U32Field(buf, end, Crc32.Hash(Body(f)));
  }

  lemma DecodeEncode(f: Frame, rest: seq<Byte>)
    requires Encodable(f)
    ensures Decode(Encode(f) + rest) == Got(f, |Encode(f)|)
  {
    hide Crc32.Hash, TypeOf, Code, Header, Body, Encode, U16At, U32At;
    var e := Encode(f);
    var buf, off, end := e + rest, HEADER_LEN + |f.payload|, |Body(f)|;
    EncodingFields(f, rest);
    EncodingLayout(f);
    assert buf[..end] == e[..end];
    assert buf[HEADER_LEN..off] == e[HEADER_LEN..off];
    assert buf[off + 2..end] == e[off + 2..end];
  }

  /** A buffer whose fields hold what an encoder would put there starts with that encoding. */
  lemma FieldsMakeEncoding(buf: seq<Byte>, f: Frame)
    requires Encodable(f) && |Encode(f)| <= |buf|
    requires U16At(buf, 0) == MAGIC && buf[2] == VERSION && buf[3] == Code(f.frameType)
    requires U32At(buf, 4) == f.streamId && U32At(buf, 8) == |f.payload|
    requires buf[HEADER_LEN..HEADER_LEN + |f.payload|] == f.payload
    requires U16At(buf, HEADER_LEN + |f.payload|) == |f.padding|
    requires buf[HEADER_LEN + |f.payload| + 2..|Body(f)|] == f.padding
    requires U32At(buf, |Body(f)|) == Crc32.Hash(buf[..|Body(f)|])
    ensures buf[..|Encode(f)|] == Encode(f)
  {
    hide Crc32.Hash, Code, PutU16, PutU32, U16At, U32At;
    var off, end := HEADER_LEN + |f.payload|, |Body(f)|;
    U16Field(buf, 0, MAGIC);
    U32Field(buf, 4, f.streamId);
    U32Field(buf, 8, |f.payload|);
    U16Field(buf, off, |f.padding|);
    U32Field(buf, end, Crc32.Hash(buf[..end]));
    assert buf[..HEADER_LEN] == buf[0..2] + [buf[2], buf[3]] + buf[4..8] + buf[8..12];
    assert buf[..end] == buf[..HEADER_LEN] + buf[HEADER_LEN..off] + buf[off..off + 2] + buf[off + 2..end];
    assert buf[..|Encode(f)|] == buf[..end] + buf[end..end + 4];
  }

  /** The bytes a successful decode consumed are the encoding of the frame it returned. */
  lemma DecodedIsEncoding(buf: seq<Byte>)
    requires Decode(buf).Got?
    ensures var f, n := Decode(buf).frame, Decode(buf).consumed;
      Encodable(f) && n == |Encode(f)| <= |buf| && buf[..n] == Encode(f)
  {
    hide Crc32.Hash, Header, U16At, U32At;
    FieldsMakeEncoding(buf, Decode(buf).frame);
  }

  lemma DecodeIffEncoding(buf: seq<Byte>)
    ensures Decode(buf).Got? <==> exists f :: Encodable(f) && Encode(f) <= buf
  {
    hide Encode, Decode;
    if Decode(buf).Got? {
      DecodedIsEncoding(buf);
    }
    forall f | Encodable(f) && Encode(f) <= buf
      ensures Decode(buf).Got?
    {
      var rest := buf[|Encode(f)|..];
      assert buf == Encode(f) + rest;
      DecodeEncode(f, rest);
    }
  }

  /** No encoding is a proper prefix of another, so a stream of frames splits in one way only. */
  lemma EncodingPrefixFree(f: Frame, g: Frame)
    requires Encodable(f) && Encodable(g) && Encode(f) <= Encode(g)
    ensures f == g
  {
    var rest := Encode(g)[|Encode(f)|..];
    assert Encode(g) == Encode(f) + rest;
    DecodeEncode(f, rest);
    assert Encode(g) == Encode(g) + [];
    DecodeEncode(g, []);
  }

  /** A frame survives the codec exactly when its lengths fit and its version is current. */
  lemma RoundTripIff(f: Frame)
    ensures Decode(Encode(f)) == Got(f, |Encode(f)|) <==> Encodable(f)
  {
    if Encodable(f) {
      assert Encode(f) == Encode(f) + [];
      DecodeEncode(f, []);
    } else if Decode(Encode(f)) == Got(f, |Encode(f)|) {
      DecodedIsEncoding(Encode(f));
    }
  }

  /** One padding byte too many, which `padding_max = 65536` allows, and no decoding gives the frame back. */
  lemma OversizedPaddingIsLost(f: Frame, rest: seq<Byte>)
    requires |f.padding| == 65536
    ensures Decode(Encode(f) + rest).Got? ==> Decode(Encode(f) + rest).frame != f
  {
    if Decode(Encode(f) + rest).Got? {
      DecodedIsEncoding(Encode(f) + rest);
    }
  }

  /** With 65536 padding bytes the length field says none, and the padding's first bytes are read as the checksum. */
  lemma OversizedPaddingReads(f: Frame, rest: seq<Byte>)
    requires f.version == VERSION && |f.payload| < U32_SIZE && |f.padding| == 65536
    ensures var g := f.(padding := []);
      Decode(Encode(f) + rest) ==
      if f.padding[..4] == PutU32(Crc32.Hash(Body(g))) then Got(g, |Encode(g)|) else Bad(InvalidCrc)
  {
    hide Crc32.Hash, TypeOf, Code, Header, Encode, Decode, PutU16, PutU32, U16At, U32At;
    var g := f.(padding := []);
    var n, crc := |Body(g)|, PutU32(Crc32.Hash(Body(g)));
    var behind := f.padding[4..] + PutU32(Crc32.Hash(Body(f))) + rest;
    var buf := Encode(f) + rest;
    assert Header(f) == Header(g) by { SameHeader(f); }
    assert buf == Body(g) + f.padding[..4] + behind by { OversizedLayout(f); }
    if f.padding[..4] == crc {
      assert Encode(g) == Body(g) + crc by { EncodingLayout(g); assert Encode(g) == Encode(g)[..n] + Encode(g)[n..]; }
      assert buf == Encode(g) + behind;
      DecodeEncode(g, behind);
    } else {
      WrongChecksum(g, f.padding[..4], behind);
    }
  }

  lemma SameHeader(f: Frame)
    ensures Header(f.(padding := [])) == Header(f)
  {
  }

  lemma OversizedLayout(f: Frame)
    requires |f.padding| == 65536
    ensures Encode(f) == Body(f.(padding := [])) + f.padding[..4] + f.padding[4..] + PutU32(Crc32.Hash(Body(f)))
  {
    hide Crc32.Hash, Header, PutU16, PutU32;
    SameHeader(f);
    assert Body(f) == Body(f.(padding := [])) + f.padding;
    assert f.padding == f.padding[..4] + f.padding[4..];
  }

  /** Behind the body of a valid frame anything but its checksum is an error. */
  lemma WrongChecksum(g: Frame, crc: seq<Byte>, behind: seq<Byte>)
    requires Encodable(g) && |crc| == 4 && crc != PutU32(Crc32.Hash(Body(g)))
    ensures Decode(Body(g) + crc + behind) == Bad(InvalidCrc)
  {
    hide Crc32.Hash, TypeOf, Code, Header, Encode, PutU16, PutU32;
    var n := |Body(g)|;
    var buf, good := Body(g) + crc + behind, Encode(g) + behind;
    EncodingFields(g, behind);
    EncodingLayout(g);
    assert forall i :: 0 <= i < n ==> buf[i] == Encode(g)[..n][i];
    hide Body;
    assert buf[..n] == Body(g) && buf[n..n + 4] == crc;
    U32Field(buf, n, Crc32.Hash(Body(g)));
    assert forall i :: 0 <= i < n ==> buf[i] == good[i];
  }

  // ---- Error detection ----

  /** `other` is `e` with the bytes from `at` to `at + width` replaced. */
  ghost predicate DiffersOnlyIn(e: seq<Byte>, other: seq<Byte>, at: nat, width: nat) {
    && |other| == |e|
    && at + width <= |e|
    && other[..at] == e[..at]
    && other[at + width..] == e[at + width..]
  }

  /** The window lies in one of the parts that no length field belongs to. */
  ghost predicate ClearOfLengths(f: Frame, at: nat, width: nat) {
    || at + width <= 8
    || (HEADER_LEN <= at && at + width <= HEADER_LEN + |f.payload|)
    || HEADER_LEN + |f.payload| + 2 <= at
  }

  /**
   * Damage within four consecutive bytes that are no length field is always noticed, and in the stream id,
   * the payload, the padding and the checksum it is the checksum that notices, also where the damage runs
   * from one into the other.
   */
  lemma BurstDetected(f: Frame, damaged: seq<Byte>, at: nat, width: nat, rest: seq<Byte>)
    requires Encodable(f) && width <= 4
    requires DiffersOnlyIn(Encode(f), damaged, at, width) && damaged != Encode(f)
    requires ClearOfLengths(f, at, width)
    ensures Decode(damaged + rest).Bad?
    ensures 4 <= at ==> Decode(damaged + rest) == Bad(InvalidCrc)
  {
    hide Crc32.Hash, TypeOf, Code, Header, Body, Encode, PutU32, PutU16, U16At, U32At;
    var n, off := |Body(f)|, HEADER_LEN + |f.payload|;
    var buf, good := damaged + rest, Encode(f) + rest;
    EncodingFields(f, rest);
    OutsideWindow(Encode(f), damaged, at, width, rest);
    assert 4 <= at ==> U16At(buf, 0) == MAGIC && buf[2] == VERSION && buf[3] == Code(f.frameType) by {
      SameFields(good, buf, 0);
    }
    assert U32At(buf, 8) == |f.payload| by { SameFields(good, buf, 8); }
    assert U16At(buf, off) == |f.padding| by { SameFields(good, buf, off); }
    DamagedMatch(f, damaged, at, width);
    assert buf[..n] == damaged[..n] && buf[n..n + 4] == damaged[n..];
    U32Field(buf, n, Crc32.Hash(damaged[..n]));
  }

  lemma SameFields(a: seq<Byte>, b: seq<Byte>, i: nat)
    requires i + 2 <= |a| == |b|
    ensures a[i] == b[i] && a[i + 1] == b[i + 1] ==> U16At(a, i) == U16At(b, i)
    ensures i + 4 <= |a| && (forall k :: i <= k < i + 4 ==> a[k] == b[k]) ==> U32At(a, i) == U32At(b, i)
  {
  }

  /** Damage within four bytes leaves body and checksum apart. */
  lemma DamagedMatch(f: Frame, damaged: seq<Byte>, at: nat, width: nat)
    requires width <= 4 && DiffersOnlyIn(Encode(f), damaged, at, width) && damaged != Encode(f)
    ensures damaged[|Body(f)|..] != PutU32(Crc32.Hash(damaged[..|Body(f)|]))
  {
    hide Crc32.Hash, Header, Body, PutU32;
    var e, n := Encode(f), |Body(f)|;
    var front, back := e[..at], e[at + width..];
    assert e == front + e[at..at + width] + back;
    assert damaged == front + damaged[at..at + width] + back;
    Crc32.BurstBreaksMatch(Body(f), front, e[at..at + width], damaged[at..at + width], back);
    assert damaged == damaged[..n] + damaged[n..];
  }

  lemma OutsideWindow(e: seq<Byte>, damaged: seq<Byte>, at: nat, width: nat, rest: seq<Byte>)
    requires DiffersOnlyIn(e, damaged, at, width)
    ensures forall i :: 0 <= i < |e| && !(at <= i < at + width) ==> (damaged + rest)[i] == (e + rest)[i]
  {
    forall i | 0 <= i < |e| && !(at <= i < at + width)
      ensures damaged[i] == e[i]
    {
      if i < at {
        assert damaged[..at][i] == e[..at][i];
      } else {
        assert damaged[at + width..][i - at - width] == e[at + width..][i - at - width];
      }
    }
  }
}
