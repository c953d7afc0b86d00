/**
 * Frames over a byte stream: the server's handshake loop and reader, the writer, and the fact that
 * the way the stream is cut into chunks never shows (src/server/tunnel.rs).
 */
module Streaming {
  import opened Bytes
  import opened Frames

  /** What decoding until nothing more comes out gives: the frames, what is left, and why it ended. */
  datatype Drained = Drained(frames: seq<Frame>, rest: seq<Byte>, error: Option<ProtocolError>)

  function Drain(buf: seq<Byte>): Drained
    decreases |buf|
  {
    match Decode(buf)
    case NeedMore => Drained([], buf, None)
    case Bad(e) => Drained([], buf, Some(e))
    case Got(f, n) => Then([f], Drain(buf[n..]))
  }

  function Then(frames: seq<Frame>, d: Drained): (r: Drained)
    ensures r.frames == frames + d.frames && r.rest == d.rest && r.error == d.error
  {
    d.(frames := frames + d.frames)
  }

  lemma ThenThen(a: seq<Frame>, b: seq<Frame>, d: Drained)
    ensures Then(a, Then(b, d)) == Then(a + b, d)
  {
    assert a + (b + d.frames) == (a + b) + d.frames;
  }

  /** The reader: drain, read, append, drain again. An empty read is the end of the stream. */
  function ReadAll(buf: seq<Byte>, chunks: seq<seq<Byte>>): Drained
    decreases |chunks|
  {
    var d := Drain(buf);
    if d.error != None || chunks == [] || chunks[0] == [] then d
    else Then(d.frames, ReadAll(d.rest + chunks[0], chunks[1..]))
  }

  datatype Opening =
    | Opened(frame: Frame, rest: seq<Byte>, remaining: seq<seq<Byte>>)
    | Closed
    | Failed(error: ProtocolError)

  /** The handshake loop: read until the buffer holds one frame, and hand the leftover on. */
  function FirstFrame(buf: seq<Byte>, chunks: seq<seq<Byte>>): Opening
    decreases |chunks|
  {
    match Decode(buf)
    case Got(f, n) => Opened(f, buf[n..], chunks)
    case Bad(e) => Failed(e)
    case NeedMore => if chunks == [] || chunks[0] == [] then Closed else FirstFrame(buf + chunks[0], chunks[1..])
  }

  /** A source of chunks: every element is what one call returns, and an empty one ends the stream. */
  class ReadHalf {
    var chunks: seq<seq<Byte>>

    constructor (chunks: seq<seq<Byte>>)
      ensures this.chunks == chunks
    {
      this.chunks := chunks;
    }

    method ReadBuf(buf: ByteBuffer) returns (n: nat)
      modifies this, buf
      ensures n == 0 <==> old(chunks) == [] || old(chunks)[0] == []
      ensures n == 0 ==> chunks == old(chunks) && buf.data == old(buf.data)
      ensures n > 0 ==> chunks == old(chunks)[1..] && buf.data == old(buf.data) + old(chunks)[0]
    {
      if chunks == [] || chunks[0] == [] {
        return 0;
      }
      n := |chunks[0]|;
      buf.Put(chunks[0]);
      chunks := chunks[1..];
    }
  }

  method AwaitFirstFrame(half: ReadHalf, buf: ByteBuffer) returns (o: Opening)
    modifies half, buf
    ensures o == FirstFrame(old(buf.data), old(half.chunks))
    ensures o.Opened? ==> buf.data == o.rest && half.chunks == o.remaining
  {
    while true
      invariant FirstFrame(buf.data, half.chunks) == FirstFrame(old(buf.data), old(half.chunks))
      decreases |half.chunks|
    {
      var d := buf.Take();
      match d {
        case Got(f, n) => return Opened(f, buf.data, half.chunks);
        case Bad(e) => return Failed(e);
        case NeedMore =>
          var n := half.ReadBuf(buf);
          if n == 0 {
            return Closed;
          }
      }
    }
  }

  /** The reader task; `frames` is everything it dispatched, in order. */
  method ReaderTask(half: ReadHalf, buf: ByteBuffer) returns (frames: seq<Frame>, error: Option<ProtocolError>)
    modifies half, buf
    ensures Drained(frames, buf.data, error) == ReadAll(old(buf.data), old(half.chunks))
  {
    hide Drain, Then;
    frames, error := [], None;
    while true
      invariant error == None
      invariant Then(frames, ReadAll(buf.data, half.chunks)) == ReadAll(old(buf.data), old(half.chunks))
      decreases |half.chunks|
    {
      var all, more := ReaderRound(buf);
      if more != None {
        frames, error := frames + all, more;
        return;
      }
      var n := half.ReadBuf(buf);
      if n == 0 {
        frames := frames + all;
        return;
      }
      ThenThen(frames, all, ReadAll(buf.data, half.chunks));
      frames := frames + all;
    }
  }

  /** The inner loop of the reader: dispatch every complete frame in the buffer. */
  method ReaderRound(buf: ByteBuffer) returns (frames: seq<Frame>, error: Option<ProtocolError>)
    modifies buf
    ensures Drained(frames, buf.data, error) == Drain(old(buf.data))
  {
    frames, error := [], None;
    while true
      invariant error == None
      invariant Then(frames, Drain(buf.data)) == Drain(old(buf.data))
      decreases |buf.data|
    {
      ghost var before := buf.data;
      var d := buf.Take();
      match d {
        case NeedMore =>
          return;
        case Bad(e) =>
          error := Some(e);
          return;
        case Got(f, n) =>
          ThenThen(frames, [f], Drain(buf.data));
          frames := frames + [f];
      }
    }
  }

  // ---- Cutting the stream into chunks does not show ----

  /** Draining a longer buffer is draining the short one and going on from what was left. */
  lemma {:induction false} DrainAppend(buf: seq<Byte>, more: seq<Byte>)
    ensures var d := Drain(buf);
      Drain(buf + more) == if d.error == None then Then(d.frames, Drain(d.rest + more))
                           else Drained(d.frames, d.rest + more, d.error)
    decreases |buf|
  {
    hide Decode, Then;
    match Decode(buf)
    case NeedMore =>
    case Bad(e) =>
      DecodeStable(buf, more);
    case Got(f, n) =>
      DecodeStable(buf, more);
      var all := buf + more;
      assert all[n..] == buf[n..] + more;
      DrainAppend(buf[n..], more);
      var d := Drain(buf[n..]);
      ThenThen([f], d.frames, Drain(d.rest + more));
  }

  /** All the chunks up to the end of the stream. */
  ghost predicate Nonempty(chunks: seq<seq<Byte>>) {
    forall i :: 0 <= i < |chunks| ==> chunks[i] != []
  }

  /**
   * However a byte string is cut into chunks, the reader dispatches the frames that one drain of the
   * whole string gives and stops for the same reason; without an error it also leaves the same bytes,
   * and with one it leaves bytes that the whole drain leaves too.
   */
  lemma {:induction false} ChunkIndependence(buf: seq<Byte>, chunks: seq<seq<Byte>>)
    requires Nonempty(chunks)
    ensures var r, whole := ReadAll(buf, chunks), Drain(buf + Flatten(chunks));
      && r.frames == whole.frames && r.error == whole.error
      && (r.error == None ==> r.rest == whole.rest)
      && r.rest <= whole.rest
    decreases |chunks|
  {
    var d := Drain(buf);
    DrainAppend(buf, Flatten(chunks));
    if chunks == [] {
      assert buf + Flatten(chunks) == buf;
    } else if d.error == None {
      ChunkIndependence(d.rest + chunks[0], chunks[1..]);
      assert d.rest + Flatten(chunks) == (d.rest + chunks[0]) + Flatten(chunks[1..]);
    }
  }

  /** Two ways of cutting the same bytes cannot be told apart by what is dispatched. */
  lemma CutsAgree(buf: seq<Byte>, chunks: seq<seq<Byte>>, others: seq<seq<Byte>>)
    requires Nonempty(chunks) && Nonempty(others) && Flatten(chunks) == Flatten(others)
    ensures ReadAll(buf, chunks).frames == ReadAll(buf, others).frames
    ensures ReadAll(buf, chunks).error == ReadAll(buf, others).error
  {
    ChunkIndependence(buf, chunks);
    ChunkIndependence(buf, others);
  }

  /** The handshake loop consumes exactly the first frame of the stream and loses nothing behind it. */
  lemma {:induction false} HandoffIsSeamless(buf: seq<Byte>, chunks: seq<seq<Byte>>)
    requires Nonempty(chunks)
    ensures var whole := Drain(buf + Flatten(chunks));
      match FirstFrame(buf, chunks)
      case Opened(f, rest, remaining) =>
        && Nonempty(remaining)
        && whole.frames == [f] + ReadAll(rest, remaining).frames
        && whole.error == ReadAll(rest, remaining).error
        && (whole.error == None ==> whole.rest == ReadAll(rest, remaining).rest)
      case Failed(e) => whole.frames == [] && whole.error == Some(e)
      case Closed => whole == Drained([], buf + Flatten(chunks), None)
    decreases |chunks|
  {
    hide Decode;
    var all := buf + Flatten(chunks);
    match Decode(buf)
    case Got(f, n) =>
      DecodeStable(buf, Flatten(chunks));
      assert all[n..] == buf[n..] + Flatten(chunks);
      ChunkIndependence(buf[n..], chunks);
    case Bad(e) =>
      DecodeStable(buf, Flatten(chunks));
    case NeedMore =>
      if chunks == [] {
        assert all == buf;
      } else {
        HandoffIsSeamless(buf + chunks[0], chunks[1..]);
        assert all == (buf + chunks[0]) + Flatten(chunks[1..]);
      }
  }

  /**
   * One connection as the server reads it: the handshake loop, and for an admitted client the reader on
   * the same buffer. Every frame of the stream is seen once, in order, the first one by the handshake.
   */
  method Serve(half: ReadHalf, admitted: bool) returns (seen: seq<Frame>, error: Option<ProtocolError>)
    requires Nonempty(half.chunks)
    modifies half
    ensures var whole := Drain(Flatten(old(half.chunks)));
      if admitted then seen == whole.frames && error == whole.error
      else seen == if whole.frames == [] then [] else whole.frames[..1]
  {
    hide Drain, FirstFrame;
    ghost var stream := Flatten(half.chunks);
    HandoffIsSeamless([], half.chunks);
    assert [] + stream == stream;
    var buf := new ByteBuffer();
    var o := AwaitFirstFrame(half, buf);
    match o {
      case Closed =>
        return [], None;
      case Failed(e) =>
        return [], Some(e);
      case Opened(first, _, _) =>
        if !admitted {
          return [first], None;
        }
        var frames;
        frames, error := ReaderTask(half, buf);
        seen := [first] + frames;
    }
  }

  // ---- The writer ----

  /** The bytes of a sequence of frames, one encoding after the other. */
  function Wire(frames: seq<Frame>): seq<Byte> {
    if frames == [] then [] else Encode(frames[0]) + Wire(frames[1..])
  }

  lemma {:induction false} WireAppend(a: seq<Frame>, b: seq<Frame>)
    ensures Wire(a + b) == Wire(a) + Wire(b)
  {
    hide Encode;
    if a == [] {
      assert a + b == b;
    } else {
      var c := a + b;
      assert c[1..] == a[1..] + b;
      WireAppend(a[1..], b);
    }
  }

  /** The frames as the writer sends them: with padding on, frame `i` carries the bytes drawn for it. */
  function Padded(frames: seq<Frame>, padding: bool, draws: seq<seq<Byte>>): (p: seq<Frame>)
    requires |draws| == |frames|
    ensures |p| == |frames|
  {
    if frames == [] then []
    else [if padding then frames[0].(padding := draws[0]) else frames[0]] + Padded(frames[1..], padding, draws[1..])
  }

  /** A sink that takes whole writes until one of them breaks after some of its bytes. */
  class WriteHalf {
    var written: seq<Byte>
    var capacity: nat

    constructor (capacity: nat)
      ensures written == [] && this.capacity == capacity
    {
      written, this.capacity := [], capacity;
    }

    method WriteAll(bytes: seq<Byte>) returns (ok: bool)
      requires |written| <= capacity
      modifies this
      ensures ok == (|old(written)| + |bytes| <= capacity)
      ensures ok ==> written == old(written) + bytes
      ensures !ok ==> exists k :: 0 <= k < |bytes| && written == old(written) + bytes[..k]
      ensures capacity == old(capacity) && |written| <= capacity
    {
      ok := |written| + |bytes| <= capacity;
      if ok {
        written := written + bytes;
      } else {
        written := written + bytes[..capacity - |written|];
      }
    }
  }

  /** The bytes of some frames and, if the connection broke, of the beginning of the next one. */
  ghost predicate WroteSome(bytes: seq<Byte>, frames: seq<Frame>, n: nat) {
    && n <= |frames|
    && exists tail :: bytes == Wire(frames[..n]) + tail
                   && if n < |frames| then tail < Encode(frames[n]) else tail == []
  }

  /** The writer task on the frames its channel delivers; `n` is how many went out whole. */
  method WriterTask(out: WriteHalf, frames: seq<Frame>, padding: bool, paddingMax: nat, draws: seq<seq<Byte>>)
    returns (n: nat)
    requires |draws| == |frames| && forall i :: 0 <= i < |draws| ==> |draws[i]| <= paddingMax
    requires out.written == []
    modifies out
    ensures WroteSome(out.written, Padded(frames, padding, draws), n)
    ensures |Wire(Padded(frames, padding, draws))| <= out.capacity ==> n == |frames|
    ensures n < |frames| ==> |Wire(Padded(frames, padding, draws)[..n + 1])| > old(out.capacity)
  {
    hide Encode, Padded, Wire;
    var buf := new ByteBuffer();
    n := 0;
    ghost var sent := Padded(frames, padding, draws);
    WireNone(sent);
    while n < |frames|
      invariant n <= |frames|
      invariant out.written == Wire(sent[..n])
      invariant out.capacity == old(out.capacity) && |out.written| <= out.capacity
    {
      var frame := if padding then frames[n].(padding := draws[n]) else frames[n];
      PaddedAt(frames, padding, draws, n);
      buf.Clear();
      buf.Append(frame);
      assert buf.data == Encode(frame);
      WireNext(sent, n);
      var ok := out.WriteAll(buf.data);
      if !ok {
        WireGrows(sent, n + 1);
        return;
      }
      n := n + 1;
    }
    assert sent[..n] == sent;
    assert out.written == Wire(sent[..n]) + [];
  }

  lemma WireNone(frames: seq<Frame>)
    ensures Wire(frames[..0]) == []
  {
  }

  lemma WireNext(frames: seq<Frame>, n: nat)
    requires n < |frames|
    ensures Wire(frames[..n + 1]) == Wire(frames[..n]) + Encode(frames[n])
  {
    hide Encode;
    var last := [frames[n]];
    assert frames[..n + 1] == frames[..n] + last;
    assert last[1..] == [];
    WireAppend(frames[..n], last);
  }

  lemma WireGrows(frames: seq<Frame>, n: nat)
    requires n <= |frames|
    ensures |Wire(frames[..n])| <= |Wire(frames)|
  {
    hide Encode;
    assert frames == frames[..n] + frames[n..];
    WireAppend(frames[..n], frames[n..]);
  }

  lemma {:induction false} PaddedAt(frames: seq<Frame>, padding: bool, draws: seq<seq<Byte>>, i: nat)
    requires |draws| == |frames| && i < |frames|
    ensures Padded(frames, padding, draws)[i] == if padding then frames[i].(padding := draws[i]) else frames[i]
  {
    if i > 0 {
      PaddedAt(frames[1..], padding, draws[1..], i - 1);
    }
  }

  // ---- What was written is read back ----

  /** The beginning of an encoding is never mistaken for anything. */
  lemma BeginningNeedsMore(f: Frame, tail: seq<Byte>)
    requires Encodable(f) && tail < Encode(f)
    ensures Decode(tail) == NeedMore
  {
    hide Decode, Encode;
    if !Decode(tail).NeedMore? {
      var more := Encode(f)[|tail|..];
      assert Encode(f) == tail + more;
      DecodeStable(tail, more);
      assert Encode(f) == Encode(f) + [];
      DecodeEncode(f, []);
    }
  }

  lemma EmptyNeedsMore()
    ensures Decode([]) == NeedMore
  {
  }

  lemma {:induction false} DrainWire(frames: seq<Frame>, tail: seq<Byte>)
    requires forall i :: 0 <= i < |frames| ==> Encodable(frames[i])
    requires Decode(tail) == NeedMore
    ensures Drain(Wire(frames) + tail) == Drained(frames, tail, None)
    decreases |frames|
  {
    hide Decode, Encode;
    if frames == [] {
      assert Wire(frames) + tail == tail;
    } else {
      var e, rest := Encode(frames[0]), Wire(frames[1..]) + tail;
      assert Wire(frames) + tail == e + rest;
      DecodeEncode(frames[0], rest);
      assert (e + rest)[|e|..] == rest;
      DrainWire(frames[1..], tail);
    }
  }

  /** Same type, stream id and payload: what a receiver can tell about a frame once padding is gone. */
  ghost predicate SameContent(a: seq<Frame>, b: seq<Frame>) {
    && |a| == |b|
    && forall i :: 0 <= i < |a| ==>
         a[i].frameType == b[i].frameType && a[i].streamId == b[i].streamId && a[i].payload == b[i].payload
  }

  /**
   * Whatever the writer got out, however padded, and however it arrives, the reader dispatches exactly
   * the frames that went out whole, content unchanged, and keeps the torn last one in its buffer.
   */
  lemma WrittenIsRead(frames: seq<Frame>, padding: bool, draws: seq<seq<Byte>>, n: nat, chunks: seq<seq<Byte>>)
    requires |draws| == |frames|
    requires forall i :: 0 <= i < |frames| ==> Encodable(frames[i]) && |draws[i]| < U16_SIZE
    requires Nonempty(chunks) && WroteSome(Flatten(chunks), Padded(frames, padding, draws), n)
    ensures var r := ReadAll([], chunks);
      && SameContent(r.frames, frames[..n]) && r.error == None
      && (n == |frames| ==> r.rest == [])
  {
    hide Encode;
    var sent := Padded(frames, padding, draws);
    forall i | 0 <= i < |frames|
      ensures sent[i] == if padding then frames[i].(padding := draws[i]) else frames[i]
    {
      PaddedAt(frames, padding, draws, i);
    }
    WholeFramesAreRead(sent, n, chunks);
  }

  lemma WholeFramesAreRead(sent: seq<Frame>, n: nat, chunks: seq<seq<Byte>>)
    requires forall i :: 0 <= i < |sent| ==> Encodable(sent[i])
    requires Nonempty(chunks) && WroteSome(Flatten(chunks), sent, n)
    ensures var r := ReadAll([], chunks);
      && r.frames == sent[..n] && r.error == None
      && (n == |sent| ==> r.rest == [])
  {
    hide Encode, Decode, Encodable;
    var bytes := Flatten(chunks);
    var tail :| bytes == Wire(sent[..n]) + tail && if n < |sent| then tail < Encode(sent[n]) else tail == [];
    EmptyNeedsMore();
    if n < |sent| {
      BeginningNeedsMore(sent[n], tail);
    }
    DrainWire(sent[..n], tail);
    ChunkIndependence([], chunks);
    assert [] + bytes == bytes;
  }
}
