/**
 * Runs of the steps of one end, whatever the other end sends: what the imperative tasks of `Listener` and
 * `Forwarder` are proved to be.
 */
module Walks {
  import opened Frames
  import opened Messages
  import D = Delivery
  import S = Server
  import C = Client

  /** Both ends, and the frames each has queued so far. */
  datatype Walk = Walk(server: S.Server, client: C.Client, down: seq<Message>, up: seq<Message>)

  /** A step of the two-ended system, except that a dispatched frame may be any frame. */
  predicate CanStep(w: Walk, step: D.Step) {
    match step
    case AtServer(a) => S.Enabled(w.server, a)
    case AtClient(a) => C.Enabled(w.client, a)
    case DownChatter(m) => D.IsChatter(m)
    case UpChatter(m) => D.IsChatter(m)
  }

  function Stepped(w: Walk, step: D.Step): Walk
    requires CanStep(w, step)
  {
    match step
    case AtServer(a) => w.(server := S.Do(w.server, a), down := w.down + S.Emits(w.server, a))
    case AtClient(a) => w.(client := C.Do(w.client, a), up := w.up + C.Emits(w.client, a))
    case DownChatter(m) => w.(down := w.down + [m])
    case UpChatter(m) => w.(up := w.up + [m])
  }

  ghost predicate Goes(start: Walk, steps: seq<D.Step>)
    decreases |steps|, 0
  {
    if steps == [] then true
    else
      var before := steps[..|steps| - 1];
      Goes(start, before) && CanStep(After(start, before), steps[|steps| - 1])
  }

  ghost function After(start: Walk, steps: seq<D.Step>): Walk
    requires Goes(start, steps)
    decreases |steps|, 1
  {
    if steps == [] then start
    else Stepped(After(start, steps[..|steps| - 1]), steps[|steps| - 1])
  }

  lemma GoOn(start: Walk, steps: seq<D.Step>, step: D.Step)
    requires Goes(start, steps) && CanStep(After(start, steps), step)
    ensures Goes(start, steps + [step])
    ensures After(start, steps + [step]) == Stepped(After(start, steps), step)
  {
    assert (steps + [step])[..|steps|] == steps;
  }

  lemma Begins(start: Walk)
    ensures Goes(start, []) && After(start, []) == start
  {
  }

  lemma {:induction false} KeepsServerInv(start: Walk, steps: seq<D.Step>)
    requires S.Inv(start.server) && Goes(start, steps)
    ensures S.Inv(After(start, steps).server)
  {
    if steps != [] {
      hide S.Inv, S.Do, S.Enabled, C.Do;
      var before, step := steps[..|steps| - 1], steps[|steps| - 1];
      KeepsServerInv(start, before);
      if step.AtServer? {
        S.StepKeepsInv(After(start, before).server, step.sa);
      }
    }
  }

  // ---- What the other end reads ----

  type Reading = Frame -> Message

  /** The other end reads the frames queued from position `base` on as those messages. */
  ghost predicate ReadsAs(read: Reading, frames: seq<Frame>, base: nat, messages: seq<Message>) {
    && |frames| == base + |messages|
    && forall i :: 0 <= i < |messages| ==> read(frames[base + i]) == messages[i]
  }

  lemma ReadsOn(read: Reading, frames: seq<Frame>, base: nat, messages: seq<Message>, f: Frame, m: Message)
    requires ReadsAs(read, frames, base, messages) && read(f) == m
    ensures ReadsAs(read, frames + [f], base, messages + [m])
  {
  }

  // ---- What a forwarding task comes upon; `A` is what can arrive at its awaits ----

  /** One piece of a write: so many bytes go out, and then the reader runs. */
  datatype Progress<A> = Progress(bytes: nat, arrivals: seq<A>)

  /** What the select loop comes upon, with what arrives while the task awaits. */
  datatype Event<A> =
    | FromSocket(data: Chunk, arrivals: seq<A>, sent: bool)   // bytes read, and whether the tunnel takes them
    | SocketEnds                                              // end of file or a read error
    | FromChannel(progress: seq<Progress<A>>)                 // the channel's turn, and how the write goes
    | Waiting(arrivals: seq<A>)                               // nothing ready in the select

  /** What arrives while a queued frame is sent: before the channel takes it and before the task goes on. */
  datatype Sending<A> = Sending(before: seq<A>, taken: bool, behind: seq<A>)
}
