/**
 * What a forwarding task has to achieve, told from outside: a stream's end as a function of what its sockets
 * and its tunnel bring (src/server/listener.rs:80-191, src/client/forwarder.rs:33-73). `Listener` and
 * `Forwarder` are proved to do exactly this.
 */
module Forwarding {
  import opened Bytes
  import opened Frames
  import opened Payloads
  import opened Messages
  import opened Walks

  /** One end of a stream. */
  datatype Line = Line(
    listed: bool,             // in the stream table
    alive: bool,              // the data channel's receiver still exists
    queue: seq<Chunk>,        // in the data channel
    got: seq<Chunk>,          // read from the socket
    put: seq<Byte>,           // written to the socket
    out: seq<Frame>,          // frames about the stream that were queued for the other end
    halted: bool)             // the reader has stopped for good

  /** Which stream, what its reader makes of what arrives, and whether it refuses data for unlisted streams. */
  datatype Ear<!A> = Ear(x: U32, hears: A -> Message, refuses: bool)

  function Arrived<A>(r: Ear<A>, l: Line, a: A): Line {
    if l.halted then l
    else
      match r.hears(a)
      case Data(x, data) =>
        if x != r.x then l
        else if l.listed then if l.alive then l.(queue := l.queue + [data]) else l
        else if r.refuses then l.(out := l.out + [BuildStreamClose(r.x)])
        else l
      case Close(x) => if x == r.x then l.(listed := false) else l
      case End => l.(halted := true)
      case _ => l
  }

  function Arrive<A>(r: Ear<A>, l: Line, arrivals: seq<A>): Line
    decreases |arrivals|
  {
    if arrivals == [] then l else Arrive(r, Arrived(r, l, arrivals[0]), arrivals[1..])
  }

  /** A chunk is written piece by piece; what is left of it in the end could not be written. */
  function Written<A>(r: Ear<A>, l: Line, rest: Chunk, progress: seq<Progress<A>>): (Line, Chunk)
    decreases |progress|
  {
    if progress == [] then (l, rest)
    else
      var k := Least(progress[0].bytes, |rest|);
      Written(r, Arrive(r, l.(put := l.put + rest[..k]), progress[0].arrivals), rest[k..], progress[1..])
  }

  /** One turn of the select loop, and whether it was the last. */
  function Turn<A>(r: Ear<A>, l: Line, e: Event<A>): (Line, bool) {
    match e
    case FromSocket(data, arrivals, sent) =>
      var m := Arrive(r, l.(got := l.got + [data]), arrivals);
      (if sent then m.(out := m.out + [BuildStreamData(r.x, data)]) else m, !sent)
    case SocketEnds => (l, true)
    case FromChannel(progress) =>
      if l.queue == [] then (l, !l.listed)
      else
        var (m, rest) := Written(r, l.(queue := l.queue[1..]), l.queue[0], progress);
        (m, rest != [])
    case Waiting(arrivals) => (Arrive(r, l, arrivals), false)
  }

  /** The whole loop; the socket ends when the events do. */
  function Course<A>(r: Ear<A>, l: Line, events: seq<Event<A>>): Line
    decreases |events|
  {
    if events == [] then l
    else
      var (m, ended) := Turn(r, l, events[0]);
      if ended then m else Course(r, m, events[1..])
  }

  /** How many events the loop takes. */
  function Turns<A>(r: Ear<A>, l: Line, events: seq<Event<A>>): (n: nat)
    ensures n <= |events|
    decreases |events|
  {
    if events == [] then 0
    else
      var (m, ended) := Turn(r, l, events[0]);
      if ended then 1 else 1 + Turns(r, m, events[1..])
  }

  /** A frame is sent, if the channel takes it, with what arrives before and behind. */
  function Sent<A>(r: Ear<A>, l: Line, s: Sending<A>, f: Frame, alive: bool): Line {
    var m := Arrive(r, l, s.before);
    Arrive(r, m.(out := if s.taken then m.out + [f] else m.out, alive := alive), s.behind)
  }

  /** The forwarding call of either side: the loop and the STREAM_CLOSE at its end. */
  function Forwarded<A>(r: Ear<A>, l: Line, events: seq<Event<A>>, close: Sending<A>): Line {
    Sent(r, Course(r, l, events), close, BuildStreamClose(r.x), false)
  }

  /** STREAM_OPEN, if the channel takes it, and what arrives around it. */
  function Asked<A>(r: Ear<A>, l: Line, target: Text, peer: Text, open: Sending<A>): Line {
    var m := Arrive(r, l, open.before);
    if !open.taken then m
    else Arrive(r, m.(out := m.out + [BuildStreamOpen(r.x, target, peer)]), open.behind)
  }

  /**
   * A whole public connection: STREAM_OPEN, the answer, and only after an accepting one the forwarding and the
   * last STREAM_CLOSE. `l` is the stream before its task begins.
   */
  function Connection<A>(
      r: Ear<A>, l: Line, target: Text, peer: Text, open: Sending<A>, events: seq<Event<A>>, close: Sending<A>,
      last: Sending<A>): Line
  {
    var m := Asked(r, l, target, peer, open);
    if Admitted(r, open) then Attended(r, m, events, close, last) else m
  }

  /** Listed, forwarded, unlisted and closed. */
  function Attended<A>(r: Ear<A>, l: Line, events: seq<Event<A>>, close: Sending<A>, last: Sending<A>): Line {
    var m := Forwarded(r, l.(listed := true, alive := true), events, close);
    Sent(r, m.(listed := false), last, BuildStreamClose(r.x), false)
  }

  /** STREAM_OPEN goes out, and the first answer to it accepts. */
  predicate Admitted<A>(r: Ear<A>, open: Sending<A>) {
    open.taken && FirstAnswer(r, open.before + open.behind) == Some(true)
  }

  // ---- Frames about one stream ----

  predicate IsAbout(f: Frame, x: U32) {
    f.streamId == x && (f.frameType.StreamOpen? || f.frameType.StreamData? || f.frameType.StreamClose?)
  }

  function About(frames: seq<Frame>, x: U32): seq<Frame> {
    if frames == [] then []
    else
      var f := frames[|frames| - 1];
      About(frames[..|frames| - 1], x) + if IsAbout(f, x) then [f] else []
  }

  lemma AboutOne(frames: seq<Frame>, f: Frame, x: U32)
    ensures About(frames + [f], x) == About(frames, x) + if IsAbout(f, x) then [f] else []
  {
    assert (frames + [f])[..|frames|] == frames;
  }

  // ---- What arrives ----

  /** The first answer to the stream's STREAM_OPEN, if there is one. */
  function FirstAnswer<A>(r: Ear<A>, arrivals: seq<A>): Option<bool> {
    if arrivals == [] then None
    else
      match r.hears(arrivals[0])
      case Ack(x, ok) => if x == r.x then Some(ok) else FirstAnswer(r, arrivals[1..])
      case _ => FirstAnswer(r, arrivals[1..])
  }

  lemma {:induction false} FirstAnswerOf<A>(r: Ear<A>, a: seq<A>, b: seq<A>)
    ensures FirstAnswer(r, a + b) == if FirstAnswer(r, a).Some? then FirstAnswer(r, a) else FirstAnswer(r, b)
  {
    if a == [] {
      assert a + b == b;
    } else {
      assert (a + b)[1..] == a[1..] + b;
      FirstAnswerOf(r, a[1..], b);
    }
  }

  lemma {:induction false} NothingArrives<A>(r: Ear<A>, l: Line, arrivals: seq<A>)
    requires l.halted
    ensures Arrive(r, l, arrivals) == l
  {
    if arrivals != [] {
      NothingArrives(r, l, arrivals[1..]);
    }
  }

  /** The chunks that arrive for a listed stream: those before its STREAM_CLOSE and the end of the session. */
  function Delivered<A>(r: Ear<A>, arrivals: seq<A>): seq<Chunk> {
    if arrivals == [] then []
    else
      match r.hears(arrivals[0])
      case Data(x, data) => (if x == r.x then [data] else []) + Delivered(r, arrivals[1..])
      case Close(x) => if x == r.x then [] else Delivered(r, arrivals[1..])
      case End => []
      case _ => Delivered(r, arrivals[1..])
  }

  /** A STREAM_CLOSE for the stream is among them, before the end of the session. */
  predicate Closes<A>(r: Ear<A>, arrivals: seq<A>) {
    arrivals != [] && !r.hears(arrivals[0]).End? && (r.hears(arrivals[0]) == Close(r.x) || Closes(r, arrivals[1..]))
  }

  /** How often data is refused: when it arrives for a stream that is not, or no longer, listed. */
  function Refusals<A>(r: Ear<A>, listed: bool, arrivals: seq<A>): nat {
    if arrivals == [] || !r.refuses then 0
    else
      match r.hears(arrivals[0])
      case Data(x, _) => (if x == r.x && !listed then 1 else 0) + Refusals(r, listed, arrivals[1..])
      case Close(x) => Refusals(r, listed && x != r.x, arrivals[1..])
      case End => 0
      case _ => Refusals(r, listed, arrivals[1..])
  }

  function Repeated(f: Frame, n: nat): seq<Frame> {
    seq(n, _ => f)
  }

  /** All that arrivals can queue about the stream are refusals. */
  lemma {:induction false} ArriveRefuses<A>(r: Ear<A>, l: Line, arrivals: seq<A>)
    requires !l.halted
    ensures Arrive(r, l, arrivals).out == l.out + Repeated(BuildStreamClose(r.x), Refusals(r, l.listed, arrivals))
    decreases |arrivals|
  {
    if arrivals != [] {
      var n := Arrived(r, l, arrivals[0]);
      if n.halted {
        NothingArrives(r, n, arrivals[1..]);
      } else {
        ArriveRefuses(r, n, arrivals[1..]);
        NothingRefused(r, n.listed, arrivals[1..]);
      }
    }
  }

  lemma NothingRefused<A>(r: Ear<A>, listed: bool, arrivals: seq<A>)
    ensures !r.refuses ==> Refusals(r, listed, arrivals) == 0
  {
  }

  /** A frame that is taken stands behind all that was queued, with nothing but refusals around it. */
  lemma SentIsQueued<A>(r: Ear<A>, l: Line, s: Sending<A>, f: Frame, alive: bool)
    requires !l.halted && !Arrive(r, l, s.before).halted
    ensures var m, refusal := Arrive(r, l, s.before), BuildStreamClose(r.x);
      Sent(r, l, s, f, alive).out ==
        l.out + Repeated(refusal, Refusals(r, l.listed, s.before)) + (if s.taken then [f] else [])
              + Repeated(refusal, Refusals(r, m.listed, s.behind))
  {
    hide Arrive, Refusals;
    var m := Arrive(r, l, s.before);
    ArriveRefuses(r, l, s.before);
    ArriveRefuses(r, m.(out := if s.taken then m.out + [f] else m.out, alive := alive), s.behind);
    assert m.out + [] == m.out;
  }

  /** A reader that no frame stops is never halted. */
  lemma {:induction false} NeverHalted<A(!new)>(r: Ear<A>, l: Line, arrivals: seq<A>)
    requires !l.halted && forall a :: !r.hears(a).End?
    ensures !Arrive(r, l, arrivals).halted
    decreases |arrivals|
  {
    if arrivals != [] {
      NeverHalted(r, Arrived(r, l, arrivals[0]), arrivals[1..]);
    }
  }

  lemma {:induction false} StaysUnlisted<A>(r: Ear<A>, l: Line, arrivals: seq<A>)
    requires !l.listed
    ensures !Arrive(r, l, arrivals).listed
    decreases |arrivals|
  {
    if arrivals != [] {
      StaysUnlisted(r, Arrived(r, l, arrivals[0]), arrivals[1..]);
    }
  }

  /** Behind all that the forwarding queued the last STREAM_CLOSE stands, if it is taken, and nothing but refusals. */
  lemma AttendedCloses<A(!new)>(
      r: Ear<A>, l: Line, events: seq<Event<A>>, close: Sending<A>, last: Sending<A>)
    requires forall a :: !r.hears(a).End?
    requires !Forwarded(r, l.(listed := true, alive := true), events, close).halted
    ensures var m, refusal := Forwarded(r, l.(listed := true, alive := true), events, close), BuildStreamClose(r.x);
      Attended(r, l, events, close, last).out ==
        m.out + Repeated(refusal, Refusals(r, false, last.before)) + (if last.taken then [refusal] else [])
              + Repeated(refusal, Refusals(r, false, last.behind))
  {
    hide Forwarded, Refusals, Arrived;
    var m := Forwarded(r, l.(listed := true, alive := true), events, close).(listed := false);
    NeverHalted(r, m, last.before);
    StaysUnlisted(r, m, last.before);
    SentIsQueued(r, m, last, BuildStreamClose(r.x), false);
  }

  /** Where nothing is refused exactly that frame is queued, once, if it is taken. */
  lemma SentIsOnce<A>(r: Ear<A>, l: Line, s: Sending<A>, f: Frame, alive: bool)
    requires !r.refuses
    ensures Sent(r, l, s, f, alive).out == l.out + if s.taken then [f] else []
  {
    QueuesNothing(r, l, s.before);
    var m := Arrive(r, l, s.before);
    QueuesNothing(r, m.(out := if s.taken then m.out + [f] else m.out, alive := alive), s.behind);
    assert l.out + [] == l.out;
  }

  lemma {:induction false} QueuesNothing<A>(r: Ear<A>, l: Line, arrivals: seq<A>)
    requires !r.refuses
    ensures Arrive(r, l, arrivals).out == l.out
    decreases |arrivals|
  {
    if arrivals != [] {
      QueuesNothing(r, Arrived(r, l, arrivals[0]), arrivals[1..]);
    }
  }

  /** One arrival, at a stream that may be listed. */
  lemma ArrivedIs<A>(r: Ear<A>, l: Line, a: A)
    requires l.alive && !l.halted
    ensures var m, e := Arrived(r, l, a), r.hears(a);
      && m.alive && (m.halted <==> e.End?)
      && (m.listed <==> l.listed && e != Close(r.x))
      && m.queue == l.queue + (if l.listed && e.Data? && e.sid == r.x then [e.data] else [])
  {
    assert l.queue + [] == l.queue;
  }

  lemma DeliveredStep<A>(r: Ear<A>, arrivals: seq<A>)
    requires arrivals != []
    ensures var e := r.hears(arrivals[0]);
      && Delivered(r, arrivals) ==
         (if e.Data? && e.sid == r.x then [e.data] else []) +
         (if e.End? || e == Close(r.x) then [] else Delivered(r, arrivals[1..]))
      && (Closes(r, arrivals) <==> !e.End? && (e == Close(r.x) || Closes(r, arrivals[1..])))
  {
  }

  /** What arrives goes to the channel of a listed stream until the other end closes it, and nowhere else. */
  lemma {:induction false} ArriveDelivers<A>(r: Ear<A>, l: Line, arrivals: seq<A>)
    requires l.alive && !l.halted
    ensures var m := Arrive(r, l, arrivals);
      && m.queue == l.queue + (if l.listed then Delivered(r, arrivals) else [])
      && (m.listed <==> l.listed && !Closes(r, arrivals))
    decreases |arrivals|
  {
    if arrivals == [] {
      assert l.queue + [] == l.queue;
    } else {
      DeliveredStep(r, arrivals);
      ArrivedIs(r, l, arrivals[0]);
      var n := Arrived(r, l, arrivals[0]);
      hide Arrived, Delivered, Closes;
      if n.halted {
        NothingArrives(r, n, arrivals[1..]);
      } else {
        ArriveDelivers(r, n, arrivals[1..]);
      }
    }
  }

  // ---- What the loop achieves ----

  /** The bytes that STREAM_DATA frames of the stream carry, chunk by chunk. */
  function Payload(frames: seq<Frame>, x: U32): seq<Chunk> {
    if frames == [] then []
    else
      var f := frames[|frames| - 1];
      Payload(frames[..|frames| - 1], x) +
      if f.streamId == x && f.frameType == FrameType.StreamData then [f.payload] else []
  }

  lemma PayloadOne(frames: seq<Frame>, f: Frame, x: U32)
    ensures Payload(frames + [f], x) == Payload(frames, x) +
            if f.streamId == x && f.frameType == FrameType.StreamData then [f.payload] else []
  {
    assert (frames + [f])[..|frames|] == frames;
  }

  lemma {:induction false} PayloadOfAbout(frames: seq<Frame>, x: U32)
    ensures Payload(About(frames, x), x) == Payload(frames, x)
  {
    if frames != [] {
      var n := |frames| - 1;
      PayloadOfAbout(frames[..n], x);
      PayloadOne(About(frames[..n], x), frames[n], x);
      assert About(frames[..n], x) + [] == About(frames[..n], x);
      assert Payload(frames[..n], x) + [] == Payload(frames[..n], x);
    }
  }

  /** What the socket gave, and the part of it that the tunnel took. */
  function Given<A>(events: seq<Event<A>>): seq<Chunk> {
    if events == [] then [] else (if events[0].FromSocket? then [events[0].data] else []) + Given(events[1..])
  }

  function Taken<A>(events: seq<Event<A>>): seq<Chunk> {
    if events == [] then []
    else (if events[0].FromSocket? && events[0].sent then [events[0].data] else []) + Taken(events[1..])
  }

  lemma {:induction false} GivenAppend<A>(a: seq<Event<A>>, b: seq<Event<A>>)
    ensures Given(a + b) == Given(a) + Given(b)
  {
    if a == [] {
      assert a + b == b;
    } else {
      var c := a + b;
      assert c[0] == a[0] && c[1..] == a[1..] + b;
      GivenAppend(a[1..], b);
      var first := if a[0].FromSocket? then [a[0].data] else [];
      assert Given(c) == first + Given(c[1..]) && Given(a) == first + Given(a[1..]);
      assert first + (Given(a[1..]) + Given(b)) == (first + Given(a[1..])) + Given(b);
    }
  }

  /** How many bytes a write could get out. */
  function Room<A>(progress: seq<Progress<A>>): nat {
    if progress == [] then 0 else progress[0].bytes + Room(progress[1..])
  }

  function Least(a: nat, b: nat): nat {
    if a < b then a else b
  }

  /** A write gets out as much of its chunk as there is room for, from its beginning. */
  lemma {:induction false} WrittenIsBeginning<A>(r: Ear<A>, l: Line, rest: Chunk, progress: seq<Progress<A>>)
    requires l.alive
    ensures var (m, left) := Written(r, l, rest, progress);
      var k := Least(Room(progress), |rest|);
      && m.alive && m.put == l.put + rest[..k] && left == rest[k..] && m.got == l.got
      && Payload(m.out, r.x) == Payload(l.out, r.x)
    decreases |progress|
  {
    hide Arrive, Payload;
    if progress == [] {
      assert l.put + rest[..0] == l.put;
    } else {
      var k := Least(progress[0].bytes, |rest|);
      var n := l.(put := l.put + rest[..k]);
      var more := Arrive(r, n, progress[0].arrivals);
      ArriveCarriesNothing(r, n, progress[0].arrivals);
      WrittenIsBeginning(r, more, rest[k..], progress[1..]);
      PiecesJoin(l.put, rest, k, Least(Room(progress[1..]), |rest[k..]|));
    }
  }

  lemma PiecesJoin(put: seq<Byte>, rest: Chunk, k: nat, j: nat)
    requires k + j <= |rest|
    ensures (put + rest[..k]) + rest[k..][..j] == put + rest[..k + j]
    ensures rest[k..][j..] == rest[k + j..]
  {
  }

  /**
   * What a turn does to socket and tunnel, and when it is the last: when the tunnel takes no more, the socket
   * ends, a chunk cannot be written to its end, or an empty channel is closed.
   */
  lemma TurnIs<A>(r: Ear<A>, l: Line, e: Event<A>)
    requires l.alive
    ensures var (m, ended) := Turn(r, l, e);
      && m.alive
      && m.got == l.got + Given([e])
      && Payload(m.out, r.x) == Payload(l.out, r.x) + Taken([e])
      && (e.FromSocket? ==> (ended <==> !e.sent))
      && (e.SocketEnds? ==> ended)
      && (e.Waiting? ==> !ended)
      && (e.FromChannel? && l.queue == [] ==> (ended <==> !l.listed))
      && (e.FromChannel? && l.queue != [] ==> (ended <==> Room(e.progress) < |l.queue[0]|))
      && m.put == l.put + if e.FromChannel? && l.queue != []
                          then l.queue[0][..Least(Room(e.progress), |l.queue[0]|)] else []
  {
    hide Arrive, Payload, Written;
    assert [e][1..] == [] && l.got + [] == l.got && l.put + [] == l.put;
    assert Payload(l.out, r.x) + [] == Payload(l.out, r.x);
    match e
    case FromSocket(data, arrivals, sent) =>
      var n := l.(got := l.got + [data]);
      ArriveCarriesNothing(r, n, arrivals);
      PayloadOne(Arrive(r, n, arrivals).out, BuildStreamData(r.x, data), r.x);
    case SocketEnds =>
    case FromChannel(progress) =>
      if l.queue != [] {
        WrittenIsBeginning(r, l.(queue := l.queue[1..]), l.queue[0], progress);
      }
    case Waiting(arrivals) =>
      ArriveCarriesNothing(r, l, arrivals);
  }

  lemma GivenAndTaken<A>(events: seq<Event<A>>, n: nat)
    requires 0 < n <= |events|
    ensures Given(events[..n]) == Given([events[0]]) + Given(events[1..][..n - 1])
    ensures Taken(events[..n]) == Taken([events[0]]) + Taken(events[1..][..n - 1])
  {
    assert events[..n][1..] == events[1..][..n - 1] && [events[0]][1..] == [];
  }

  /** Every event but the last that the loop takes lets it go on. */
  predicate GoesOn<A>(events: seq<Event<A>>, n: nat)
    requires n <= |events|
  {
    && (forall i :: 0 <= i < n - 1 ==> !events[i].SocketEnds? && (events[i].FromSocket? ==> events[i].sent))
    && (0 < n < |events| ==> !events[n - 1].Waiting? && (events[n - 1].FromSocket? ==> !events[n - 1].sent))
  }

  lemma GoOnTwice<A>(events: seq<Event<A>>, n: nat)
    requires 0 < n <= |events| && GoesOn(events[1..], n - 1)
    requires !events[0].SocketEnds? && (events[0].FromSocket? ==> events[0].sent)
    requires n == 1 ==> |events| == 1
    ensures GoesOn(events, n)
  {
    assert forall i :: 0 < i < n ==> events[i] == events[1..][i - 1];
  }

  /**
   * Over the whole loop the STREAM_DATA frames carry exactly what the tunnel took of what was read, in order,
   * and every turn but the last one went on.
   */
  lemma {:induction false} CourseSends<A>(r: Ear<A>, l: Line, events: seq<Event<A>>)
    requires l.alive
    ensures var m, n := Course(r, l, events), Turns(r, l, events);
      && m.alive
      && m.got == l.got + Given(events[..n])
      && Payload(m.out, r.x) == Payload(l.out, r.x) + Taken(events[..n])
      && GoesOn(events, n)
      && (events != [] ==> n > 0)
    decreases |events|
  {
    hide Payload, Turn, Given, Taken;
    if events == [] {
      NothingTaken<A>();
      assert l.got + [] == l.got && Payload(l.out, r.x) + [] == Payload(l.out, r.x);
    } else {
      TurnIs(r, l, events[0]);
      var (m, ended) := Turn(r, l, events[0]);
      if ended {
        assert events[..1] == [events[0]];
      } else {
        var n := Turns(r, l, events);
        CourseSends(r, m, events[1..]);
        GivenAndTaken(events, n);
        GoOnTwice(events, n);
      }
    }
  }

  /** STREAM_CLOSE and what arrives around it carry no data. */
  lemma SentCarriesNothing<A>(r: Ear<A>, l: Line, s: Sending<A>, f: Frame, alive: bool)
    requires !f.frameType.StreamData?
    ensures Payload(Sent(r, l, s, f, alive).out, r.x) == Payload(l.out, r.x)
    ensures Sent(r, l, s, f, alive).got == l.got && Sent(r, l, s, f, alive).put == l.put
  {
    hide Arrive, Payload;
    ArriveCarriesNothing(r, l, s.before);
    var m := Arrive(r, l, s.before);
    PayloadOne(m.out, f, r.x);
    assert Payload(m.out, r.x) + [] == Payload(m.out, r.x);
    ArriveCarriesNothing(r, m.(out := if s.taken then m.out + [f] else m.out, alive := alive), s.behind);
  }

  lemma {:induction false} ArriveCarriesNothing<A>(r: Ear<A>, l: Line, arrivals: seq<A>)
    ensures var m := Arrive(r, l, arrivals);
      Payload(m.out, r.x) == Payload(l.out, r.x) && m.got == l.got && m.put == l.put && m.alive == l.alive
    decreases |arrivals|
  {
    hide Payload;
    if arrivals != [] {
      PayloadOne(l.out, BuildStreamClose(r.x), r.x);
      assert Payload(l.out, r.x) + [] == Payload(l.out, r.x);
      ArriveCarriesNothing(r, Arrived(r, l, arrivals[0]), arrivals[1..]);
    }
  }

  lemma AskedCarriesNothing<A>(r: Ear<A>, l: Line, target: Text, peer: Text, open: Sending<A>)
    ensures Payload(Asked(r, l, target, peer, open).out, r.x) == Payload(l.out, r.x)
  {
    hide Arrive, Payload;
    ArriveCarriesNothing(r, l, open.before);
    var m, f := Arrive(r, l, open.before), BuildStreamOpen(r.x, target, peer);
    PayloadOne(m.out, f, r.x);
    assert Payload(m.out, r.x) + [] == Payload(m.out, r.x);
    ArriveCarriesNothing(r, m.(out := m.out + [f]), open.behind);
  }

  /** The forwarding call reads and sends on what `CourseSends` says, whatever arrives meanwhile. */
  lemma ForwardedSends<A>(r: Ear<A>, l: Line, events: seq<Event<A>>, close: Sending<A>)
    requires l.alive
    ensures var m, n := Forwarded(r, l, events, close), Turns(r, l, events);
      && m.got == l.got + Given(events[..n])
      && m.put == Course(r, l, events).put
      && Payload(m.out, r.x) == Payload(l.out, r.x) + Taken(events[..n])
  {
    hide Course, Sent, Payload, Given, Taken;
    CourseSends(r, l, events);
    SentCarriesNothing(r, Course(r, l, events), close, BuildStreamClose(r.x), false);
  }

  lemma NothingTaken<A>()
    ensures Given<A>([]) == [] && Taken<A>([]) == []
  {
  }
}
