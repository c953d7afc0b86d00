# Zorv: what its tunnel, tables and timers guarantee

Zorv carries many TCP and UDP flows over one framed connection between a public server and a client behind a
firewall. This project models its three layers and proves what they promise together:

1. **Frames on a byte stream.** `Bytes`, `Crc32`, `Frames`, `Streaming` and `Payloads` hold the frame layout with the
   real CRC-32 of section 8 of RFC 1952, the encoder and decoder on a growable buffer, the handshake loop, the reader
   and the writer, and the payload codecs. A byte is a number below 256, and the checksum register is a sequence of 32
   bits: error detection follows from the fact that a step of the register can be undone. `Crc32Values` computes the
   published residue and check value, and `Layouts` says in plain numbers where every field stands on the wire.
2. **The multiplexing protocol.** `Messages`, `Allocator`, `Server`, `Client`, `Streams`, `Delivery` and `EarlyData`
   are a two-ended step system whose steps are what one task does between two points where another can run, joined by
   two FIFO channels of frames. Each stream has two ledgers, one for each direction, that account for every byte.
   `Wires` joins the same two ends by byte streams instead, with padding writers and buffering readers, and carries
   what is proved of the channels over to the wire. `Walks`, `Sessions`, `Listener` and `Forwarder` are the imperative
   side: the shared session objects, `dispatch_frame`, `handle_public_conn` and both forwarding loops. Each task is
   proved to be a run of the step system in which the reader may dispatch any frames at every await of the task: the
   wait for the answer, the idle select, the awaits of every send before and after the channel takes the frame, and
   every piece of a write. `Forwarding` tells from outside, as a function of what sockets, tunnel and reader bring,
   how a stream has to end, and each task is proved to end it so. `UdpRouting` is the step system of the UDP tables
   with all its interleavings, and the listener's rounds in `UdpTasks` are proved to be runs of the listener's own
   steps in it.
3. **The tables around it.** `Registry`, `Traffic`, `Lifetimes` and `Accounting` are the session manager, the traffic
   totals and the interleavings of handshakes, cleanups, kicks, traffic queries and history samples; `LoginLimiter`,
   `Proxies`, `Reload`, `Idle`, `Rings` and `Audit` are the login limiter, the proxy rules with the sockets that their
   listeners and the sessions' UDP entries share, the hot reload with everything that can happen at its awaits, the
   idle monitor in time, and the audit log with its pages.

`dafny verify dfyconfig.toml` checks the whole project. Everything proved about runs holds for all runs, of any length
and with any number of tasks. Histories (bytes read and written, kicks recorded, what each session merged) are kept in
the states only so that the statements can speak of them.

## Where the code does not meet a property

Each of these is a theorem about the code as it is, with the condition under which the property does hold.

- Upstream delivery loses data that is dispatched between the answer and the entry into the stream table
  (`EarlyData.EarlyDataIsLost`); `Delivery.UpstreamDelivery` names exactly the chunks that are lost, and
  `Delivery.AllArrivesUpwardsIff` says that once nothing is on the way everything has arrived if and only if there was
  none.
- A kick that lands between the two halves of a cleanup lets the cleanup remove the client's newer session
  (`Lifetimes.KickInTheGapRemovesTheNewer`, reached by the run of `Lifetimes.TheGapIsReached`). Both exact conditions
  are proved for every run: no kick has landed in a gap if and only if every continuation without further such kicks is
  safe from every point on (`Lifetimes.SafeIffNoKickInAGap`), and a cleanup about to remove takes another session if
  and only if, since it saw its own id, its entry was removed and a later session of the client was registered and is
  still there (`Lifetimes.TakesForeignIff`).
- A history sample can count a session twice (`Accounting.ASampleCountsTwice`, a run); it does so if and only if the
  sampler came upon the session in the table and the session had been merged when the totals were read
  (`Accounting.CountedTwiceIff`), and by exactly its reading (`Accounting.SampleCountsTwiceExactly`). The traffic query
  never does (`Accounting.NothingIsCountedTwice`).
- A public peer can get a reply after the UDP sweep has removed its id, because the reader has looked the id up before
  and sends afterwards (`UdpRouting.ReplyAfterExpiry`, a run). From the removal on the replies sent under the id are
  the one held at that moment, if the id's reply was held and the reader's next send succeeds, and otherwise none
  (`UdpRouting.GoneIdGetsOnlyTheHeldReply`).
- A frame with 65536 padding bytes, which the configuration allows, never comes back (`Frames.OversizedPaddingIsLost`):
  it is rejected for its checksum, unless the first four bytes of the padding happen to be the checksum of the frame
  without padding, and then that frame is read with garbage behind it (`Frames.OversizedPaddingReads`).
  `Frames.RoundTripIff` is the exact condition for a frame to come back.
- Stopping a rule is meant to free its port at once (src/server/proxy.rs:88-90), but each entry of a session's UDP table
  keeps the listener's socket open. In every run a stop frees the address if and only if no session holds the socket any
  more (`Proxies.StopFreesIff`), and once no listener of the client runs an entry goes only with its session
  (`Proxies.EntryStays`).
- So a reload fails for a UDP rule that is changed and keeps its address, after one datagram of one peer
  (`Reload.ChangedUdpRuleFails`, a run for every such rule), leaves the rule stopped, and fails again as long as the
  entry stands, whatever else happens (`Reload.HeldAddressFails`, `Reload.ReloadTwice`). The exact condition: it
  restarts if and only if no session holds the socket of its listener (`Reload.ChangedUdpRuleRestartsIff`).
- A reload fails when two rules exchange their addresses, although the new list would start on its own, and then leaves
  the running rules and the configured list different (`Reload.ExchangedAddressesFail`). `Reload.ReloadSucceedsIff` is
  the exact condition for a reload to succeed, and `Reload.CalmReloadSucceedsIff` the one that can be checked before it
  begins.
- A rebuilt audit log misses everything written after a line that is not text (`Audit.RebuiltLogAgrees`), and an audit
  page whose start exceeds 64 bits repeats an earlier page (`Audit.WrappedPageRepeats`, `Audit.PageIsMeantIff`).
- The documentation promises up to 65535 concurrent streams on a tunnel (README.md:29) and a lockout after 5 failed
  passwords (README.md:35). The code hands out at most 32767 ids in the whole life of a session
  (`Allocator.ServerIds`), and 7 failures can fall into half an hour without a lockout
  (`LoginLimiter.SevenWithoutABlock`, with `LoginLimiter.AtMostSeven` as the exact bound). The model follows the code.

## Model

| member | source | states |
|---|---|---|
| Crc32.BurstInjective | src/protocol/frame.rs:127-129 | from one register, two different messages of at most 32 bits never lead to the same register |
| Crc32.BurstChangesHash | src/protocol/frame.rs:127-129 | any change inside four consecutive bytes changes the checksum, whatever stands before and behind |
| Crc32.CheckedMessage | src/protocol/frame.rs:127-129 | a message with its own checksum behind it always leaves the register at the same value |
| Crc32.BurstBreaksMatch | src/protocol/frame.rs:172-178 | a change inside four consecutive bytes of a message and its checksum never gives another message with that message's checksum, also where it runs from one into the other |
| Crc32.TableStepIsFeed | src/protocol/frame.rs:128 | the sample code's table lookup for one byte does what eight single-bit steps do |
| Crc32.Crc | src/protocol/frame.rs:128 | the byte-wise table loop of RFC 1952 computes the bit-wise checksum that the proofs are about |
| Crc32Values.ResidueIs | src/protocol/frame.rs:128 | the residue of the checksum is 0xDEBB20E3, the one published for CRC-32 |
| Crc32Values.EveryMessageLeavesTheResidue | src/protocol/frame.rs:127-129 | every message followed by its checksum leaves the register at 0xDEBB20E3 |
| Crc32Values.CheckValue | src/protocol/frame.rs:128 | the nine digits hash to 0xCBF43926, the check value of CRC-32 |
| Layouts.TypeCodes | src/protocol/frame.rs:29-45 | the codes of the frame types in numbers |
| Layouts.FrameLayout | src/protocol/frame.rs:115-130 | where magic, version, type, id, lengths, payload, padding and checksum stand in every frame that fits, all numbers low byte first |
| Layouts.CloseOfTwo | src/protocol/frame.rs:117-130 | STREAM_CLOSE for stream 2, all eighteen bytes |
| Frames.TypeOf | src/protocol/frame.rs:47-67 | a byte is read as a frame type exactly if it is that type's code, so codes and types are one-to-one |
| Frames.ByteBuffer.Append | src/protocol/frame.rs:117-130 | encoding appends the layout with its checksum and leaves what was in the buffer in front of it |
| Frames.ByteBuffer.Take | src/protocol/frame.rs:137-194 | decoding takes exactly the consumed bytes off the front on success and leaves the buffer alone otherwise |
| Frames.DecodeStable | src/protocol/frame.rs:137-194 | a definite answer, a frame or an error, does not change when more bytes arrive |
| Frames.DecodeEncode | src/protocol/frame.rs:117-194 | an encoded frame decodes to itself, consuming its own length, whatever follows it |
| Frames.DecodedIsEncoding | src/protocol/frame.rs:137-194 | the bytes a success consumed are the encoding of the frame it returned |
| Frames.DecodeIffEncoding | src/protocol/frame.rs:137-194 | decoding succeeds exactly on inputs that begin with the encoding of a valid frame |
| Frames.Decode | src/protocol/frame.rs:137-194 | every success consumes at least 18 bytes and no more than there are, so draining ends |
| Frames.EncodingPrefixFree | src/protocol/frame.rs:117-130 | no valid frame's encoding is a proper prefix of another's |
| Frames.RoundTripIff | src/protocol/frame.rs:123-126 | a frame survives the codec exactly if both lengths fit their fields and its version is current |
| Frames.OversizedPaddingIsLost | src/protocol/frame.rs:106-112 | a frame padded with 65536 bytes never decodes to itself, whatever follows it |
| Frames.OversizedPaddingReads | src/protocol/frame.rs:123-178 | such a frame is rejected for its checksum, except exactly if its padding begins with the checksum of the frame without padding, which is then what is read |
| Frames.BurstDetected | src/protocol/frame.rs:172-178 | damage within four consecutive bytes clear of the length fields is always an error, and in the stream id, the payload, the padding and the checksum, or across padding and checksum, it is InvalidCrc |
| Streaming.ReadHalf.ReadBuf | src/server/tunnel.rs:79-90 | one read appends one chunk behind the leftover, and nothing at the end of the stream |
| Streaming.AwaitFirstFrame | src/server/tunnel.rs:73-96 | the handshake loop stops at the first frame or error and hands on the leftover and the unread chunks |
| Streaming.ReaderRound | src/server/tunnel.rs:254-267 | the inner loop dispatches all complete frames in the buffer, in order, and keeps the rest |
| Streaming.ReaderTask | src/server/tunnel.rs:248-281 | the reader alternates drains and reads until the stream ends or an error occurs |
| Streaming.DrainAppend | src/server/tunnel.rs:254-267 | draining a longer buffer is draining the short one and going on from what was left |
| Streaming.ChunkIndependence | src/server/tunnel.rs:252-280 | any way of cutting the bytes into reads gives the frames, the error and the leftover of one drain of the whole |
| Streaming.CutsAgree | src/server/tunnel.rs:252-280 | two ways of cutting the same bytes dispatch the same frames and end alike |
| Streaming.HandoffIsSeamless | src/server/tunnel.rs:73-96 | the handshake consumes exactly the first frame and the reader sees all the others, with nothing lost in between |
| Streaming.Serve | src/server/tunnel.rs:72-189 | a connection's handshake and reader together see each frame of the stream once, in order |
| Streaming.WriterTask | src/server/tunnel.rs:352-373 | what was written is the encodings of the first frames, padded, and at most a torn beginning of the next; the writer stops only where the connection takes no more |
| Streaming.BeginningNeedsMore | src/protocol/frame.rs:137-170 | a proper beginning of an encoding is never taken for a frame or an error |
| Streaming.DrainWire | src/server/tunnel.rs:254-267 | concatenated encodings drain to exactly their frames |
| Streaming.WrittenIsRead | src/server/tunnel.rs:352-373 | whatever was written, however padded and however it arrives, is read as the same types, stream ids and payloads; padding is invisible |
| Payloads.RequestDecodes | src/protocol/handshake.rs:100-157 | an encoded handshake request decodes to itself |
| Payloads.DecodedRequest | src/protocol/handshake.rs:100-157 | a decoded request fits its fields and its encoding is a prefix of the payload |
| Payloads.RequestRoundTripIff | src/protocol/handshake.rs:83-97 | a request survives exactly if its three texts are at most 65535 bytes long |
| Payloads.RequestPrefixTooShort | src/protocol/handshake.rs:100-157 | every proper prefix of an encoded request is rejected as incomplete |
| Payloads.ReplyRoundTripIff | src/protocol/handshake.rs:176-210 | an acknowledgement survives exactly if its session id fits |
| Payloads.ReplyPrefixTooShort | src/protocol/handshake.rs:187-210 | every proper prefix of an encoded acknowledgement is rejected as incomplete |
| Payloads.HandshakeCrosses | src/protocol/handshake.rs:159-163 | request and acknowledgement come through payload codec, frame codec and padding unchanged |
| Payloads.TaskPayloadsCross | src/protocol/multiplex.rs:86-221 | opens, answers, datagrams and stream data come through payload codec, frame codec and padding unchanged |
| Payloads.StreamOpenRoundTripIff | src/protocol/multiplex.rs:86-123 | target and peer come back exactly if both lengths fit |
| Payloads.StreamOpenPrefix | src/protocol/multiplex.rs:99-123 | a cut payload is rejected while the target is incomplete and read without a peer after that |
| Payloads.StreamOpenAckRoundTrip | src/protocol/multiplex.rs:128-144 | the answer and its stream id come back |
| Payloads.UdpDatagramRoundTripIff | src/protocol/multiplex.rs:197-221 | target and datagram come back exactly if the target's length fits |
| Payloads.ErrorRoundTrip | src/protocol/multiplex.rs:161-176 | the reason of an error frame comes back up to the lossy text conversion |
| Payloads.HeartbeatEchoes | src/protocol/heartbeat.rs:30-53 | a heartbeat's timestamp is read back from it and from its acknowledgement |
| Layouts.OpenLayout | src/protocol/multiplex.rs:82-93 | target and peer, each behind its two-byte length |
| Layouts.AckLayout | src/protocol/multiplex.rs:125-133 | the status byte is zero for yes and one for no, and the id follows in four bytes |
| Layouts.DatagramLayout | src/protocol/multiplex.rs:184-203 | the target behind its two-byte length, then the datagram |
| Layouts.ControlLayout | src/protocol/heartbeat.rs:28-43 | heartbeats, their acknowledgements and errors carry the control stream id, a timestamp of eight bytes or the reason behind its length |
| Layouts.RequestLayout | src/protocol/handshake.rs:83-97 | client id, version, timestamp, 32 bytes of HMAC and capabilities, in this order |
| Layouts.ReplyLayout | src/protocol/handshake.rs:176-184 | session id, shortest and longest heartbeat interval, in this order |
| Messages.FramesMeanWhatTheyWereBuiltFor | src/server/tunnel.rs:284-347 | each side reads every frame that the other builds as what it was built for |
| Allocator.ServerIds | src/protocol/multiplex.rs:62-79 | in every interleaving of loads, stale ones included, and exchanges the server's ids are 2, 4, ..., counter - 2, once each, at most 32767; exhaustion is reported only then and the addition never overflows |
| Allocator.ClientIds | src/protocol/multiplex.rs:42-49 | the same for the client's odd ids, of which there are at most 32768 |
| Allocator.StreamIdAllocator.CompareExchange | src/protocol/multiplex.rs:71-74 | the exchange happens exactly if nobody took the loaded id in between |
| Allocator.StreamIdAllocator.Next | src/protocol/multiplex.rs:62-79 | the loop returns the id right after all that others took meanwhile, or reports exhaustion |
| Server.StepKeepsInv | src/server/listener.rs:97-141 | whatever frames the client sends, every step keeps the tables consistent with where each connection's task stands |
| Server.TablesDisjoint | src/server/manager.rs:50-59 | in every run no id is in two of the pending, stream and UDP tables |
| Server.StagesOnlyAdvance | src/server/listener.rs:97-138 | in every run an id moves only forward through fresh, pending, decided, open and past |
| Server.OpenStreamWasAccepted | src/server/tunnel.rs:295-301 | a stream is open only if an accepting answer for it was taken earlier, while it was pending |
| Server.CloseIsFinal | src/server/tunnel.rs:317-321 | in every run, a STREAM_CLOSE taken for a stream in the table removes it for good |
| Server.DispatchTouchesOneId | src/server/tunnel.rs:284-347 | a frame about one id, early, late or repeated, leaves everything about every other id as it was |
| Server.LateFramesAreHarmless | src/server/tunnel.rs:295-321 | late or duplicate answers, data and closes change nothing |
| Delivery.StepKeepsInv | src/client/mod.rs:201-293 | every step of the two-ended system keeps both ledgers of every stream |
| Delivery.DownstreamDelivery | src/server/listener.rs:148-191 | in every run the bytes written to a stream's local target are a prefix of the bytes read from the one public connection with its id |
| Delivery.NothingLostDownwards | src/client/forwarder.rs:33-73 | while both ends forward and nothing is on the way the local target has received everything that was read |
| Delivery.UpstreamDelivery | src/server/tunnel.rs:302-316 | in every run the bytes written to a public connection are a prefix of what its own target's task read, from the first chunk on that was not dispatched before the table insert; of everything if there was none |
| Delivery.NothingLostUpwards | src/server/tunnel.rs:302-316 | while both ends forward and nothing is on the way everything behind the early chunks has arrived |
| Delivery.AllArrivesUpwardsIff | src/server/listener.rs:113-130 | then everything has arrived if and only if no chunk was dispatched before the table insert |
| Delivery.OpenComesOnce | src/client/mod.rs:214-254 | a STREAM_OPEN that the client takes is the first and only one of its stream |
| EarlyData.EarlyDataIsLost | src/server/tunnel.rs:309-315 | a reachable state in which the first chunk is lost and the second arrived |
| Wires.StepKeepsInv | src/server/tunnel.rs:248-281 | every step of the ends, the padding writers, the byte-carrying network and the readers keeps the buffers decodable and is a step of the system of frame channels, or none of it |
| Wires.NeverUndecodable | src/server/tunnel.rs:254-267 | in every run neither reader ever meets a decoding error on what the other end wrote, however padded and cut |
| Wires.BytesAreDelivered | src/server/tunnel.rs:352-373 | in every run over byte streams, both delivery theorems hold from the public socket to the local target and back |
| Sessions.TunnelSession.DispatchFrame | src/server/tunnel.rs:284-347 | one frame changes the session's tables as the steps of its dispatch say, and field by field: a STREAM_CLOSE takes exactly its stream out of the table, an answer goes to the pending open that it names, data goes to its own stream's channel or is refused, a heartbeat comes back with the same eight bytes, and a datagram reply goes to the peer behind its id only and renews that id's activity |
| Sessions.TunnelSession.TakePending | src/server/tunnel.rs:295-301 | the first answer to a pending open is recorded and consumes the entry |
| Sessions.TunnelSession.Deliver | src/server/tunnel.rs:309-311 | data for an open stream goes behind what its channel already holds |
| Sessions.TunnelSession.Refuse | src/server/tunnel.rs:312-315 | data for any other stream is answered with STREAM_CLOSE, and counted as early before the table insert |
| Sessions.TunnelSession.Reply | src/server/tunnel.rs:325-341 | a datagram is counted, and while its id has a peer it is sent on to it and the activity of the id renewed |
| Sessions.ClientSession.DispatchFrame | src/client/mod.rs:202-293 | one frame changes the client's tables as the steps of its whole dispatch say, and field by field: data goes to its own stream's channel, a STREAM_CLOSE takes exactly its stream out, an open is answered by whether its target could be dialled, a heartbeat comes back with the same eight bytes, a datagram changes the UDP sessions as the manager does, an acknowledged heartbeat starts the count again, and exactly an error frame ends the reader, with its reason |
| Sessions.ClientSession.Attach | src/client/mod.rs:214-252 | an open is answered by whether the target could be dialled, and only then enters the stream table |
| Listener.DispatchWalks | src/server/tunnel.rs:284-347 | one whole dispatch is a run of the step system that queues exactly the answers |
| Listener.ReaderDispatches | src/server/tunnel.rs:265-266 | the reader's work at an await of another task is a run of the step system, and the client reads the queued frames as the messages of its steps |
| Listener.Await | src/server/tunnel.rs:248-281 | whatever the reader dispatches while a task awaits is a run of the step system that leaves the task where it stands and its stream as the arrivals say, and the first answer to a pending open is the one that counts |
| Forwarding.ArriveDelivers | src/server/tunnel.rs:302-321 | what arrives for a listed stream goes to its channel in order until its STREAM_CLOSE or the end of the session, and only that close unlists it |
| Forwarding.WrittenIsBeginning | src/server/listener.rs:175-180 | a write gets out as much of its chunk as there is room for, from its beginning |
| Forwarding.TurnIs | src/server/listener.rs:155-188 | what one turn reads, sends on and writes, and that only a tunnel that takes no more, the end of the socket, a chunk not written to its end or a closed and empty channel ends the loop |
| Forwarding.CourseSends | src/server/listener.rs:155-188 | over the whole loop the STREAM_DATA frames carry exactly what the tunnel took of what was read, in order, and every turn but the last went on |
| Forwarding.SentIsQueued | src/server/listener.rs:189-191 | a STREAM_CLOSE that is taken stands behind all that was queued, with nothing but refusals of late data around it |
| Forwarding.AttendedCloses | src/server/listener.rs:135-138 | the last STREAM_CLOSE stands behind all that the forwarding queued, if it is taken, with nothing but refusals around it |
| Forwarding.SentIsOnce | src/client/forwarder.rs:71-72 | on the client, which refuses nothing, exactly one STREAM_CLOSE is queued if it is taken |
| Listener.Forward | src/server/listener.rs:155-188 | one turn does what the spec of a turn says: what was read goes on exactly if the tunnel takes it, and the front chunk is written as far as there is room |
| Listener.ForwardSessionConn | src/server/listener.rs:148-191 | with the reader dispatching any frames at every await the call is a run of the step system; from events and arrivals alone, the stream ends as told by `Forwarding.Forwarded`, its STREAM_DATA frames carry exactly the chunks read that the tunnel took up to the event that ends the loop, its first STREAM_CLOSE stands behind them if it is taken, and exactly the bytes read are counted |
| Listener.AwaitAnswer | src/server/listener.rs:113-122 | the connection goes on if and only if an answer came and accepts; a timeout or a refusal ends it |
| Walks.KeepsServerInv | src/server/listener.rs:97-141 | every walk of tasks and reader, whatever the client sends, keeps the tables consistent with where each task stands |
| Listener.HandlePublicConn | src/server/listener.rs:80-141 | a whole public connection is a run of the step system; its id is the next one; it is served if and only if its STREAM_OPEN went out and the first answer among what arrives accepts; its stream ends as told by `Forwarding.Connection`, with the last STREAM_CLOSE; and at its end the id is in no table |
| Forwarder.DispatchWalks | src/client/mod.rs:202-293 | one whole dispatch of the client, dial included, is a run of its steps that queues exactly the answers |
| Forwarder.ReaderDispatches | src/client/mod.rs:191-295 | the same for the client's reader, with the server reading the queued frames as those messages |
| Forwarder.Await | src/client/mod.rs:191-295 | whatever the client's reader dispatches while a task awaits is a run of the step system that leaves the task where it stands and its stream as the arrivals say; after an error frame nothing more is dispatched |
| Forwarder.Forward | src/client/forwarder.rs:43-69 | one turn does what the spec of a turn says: what was read goes on exactly if the tunnel takes it, and the front chunk is written as far as there is room, the loop ending exactly if that is not to its end |
| Forwarder.ForwardLocal | src/client/forwarder.rs:33-73 | the client's forwarding loop with its clean-up is a run of the step system; from events and arrivals alone, what was written to the local target is told by `Forwarding.Course`, the STREAM_DATA frames carry exactly what the tunnel took of what was read, one STREAM_CLOSE is queued behind them if it is taken, and the stream is out of the table |
| UdpRouting.StepKeepsInv | src/server/udp.rs:59-143 | every step of any listener, a sweep's look at each single peer included, of the reader or of the client, which may answer under any id, keeps the maps, the table and the attribution of every datagram consistent |
| UdpRouting.ExpiredIs | src/server/udp.rs:148-155 | an entry has expired exactly if it has been idle for more than 120000 ms |
| UdpRouting.MapsAreInverse | src/server/udp.rs:80-141 | between two rounds of a listener its peer map and its own entries in the session's table are inverse, in every interleaving |
| UdpRouting.RepliesGoHome | src/server/tunnel.rs:325-342 | a reply goes only to the peer whose datagrams made its id, and under that id only the target of that peer's listener was ever reached |
| UdpRouting.GoneIdGetsOnlyTheHeldReply | src/server/tunnel.rs:325-342 | an id that has left the table never comes back; after that, exactly one reply is sent under it if the reader held one for it at that point and its next send succeeds, and none otherwise |
| UdpRouting.ReplyAfterExpiry | src/server/udp.rs:125-139 | a run in which the peer gets that reply after the sweep has removed its id |
| UdpTasks.UdpListener.IdFor | src/server/udp.rs:80-101 | a known peer keeps its id, a new one gets the next, entered on both sides; an exhausted allocator changes nothing; all as a run of the listener's own steps in the routing system |
| UdpTasks.UdpListener.Receive | src/server/udp.rs:61-120 | one datagram is counted and goes out under its peer's id with the activity renewed; a closed tunnel removes the peer on both sides; other peers and listeners are untouched; a whole round is a run of the listener's own steps |
| UdpTasks.UdpListener.Collect | src/server/udp.rs:125-135 | the sweep collects exactly the ids of its own peers that have been idle for more than 120 seconds, peer by peer as its steps do |
| UdpTasks.UdpListener.Sweep | src/server/udp.rs:121-141 | a sweep removes exactly those on both sides, keeps the tables inverse, and is a run of the listener's own steps |
| UdpTasks.UdpManager.HandleIncoming | src/client/udp.rs:52-79 | the first datagram with a target makes the socket, later ones go to that socket's own target, and a failed send closes only this session |
| UdpTasks.IncomingIsClientTake | src/client/udp.rs:52-79 | what the manager makes of a datagram, and the target it sends it to, are the client's step of the routing system |
| UdpTasks.UdpManager.CloseSession | src/client/udp.rs:122-126 | closing removes the session and tells its reply task to stop, if it was there |
| UdpTasks.UdpManager.Clear | src/client/udp.rs:129-135 | every reply task is told to stop, once, and the table is empty |
| UdpTasks.UdpManager.Sweep | src/client/udp.rs:138-159 | exactly the sessions idle for more than 120 seconds go, and each is told to stop |
| Registry.TunnelManager.Register | src/server/manager.rs:142-154 | a session is entered exactly if its client has none |
| Registry.TunnelManager.Unregister | src/server/manager.rs:157-159 | the client's session goes, whichever it is, and is returned |
| Registry.TunnelManager.UnregisterIfCurrent | src/server/manager.rs:166-176 | without interference only the session's own entry can go, and afterwards it is not registered |
| Registry.TunnelManager.IsKicked | src/server/manager.rs:127-133 | a kick refuses handshakes up to and including the end of its window |
| Registry.TunnelManager.MarkKicked | src/server/manager.rs:116-133 | from then on a handshake of the client is refused exactly until the window after this kick has passed, whatever was recorded before, and every other client is refused exactly as before |
| Registry.TunnelManager.Get | src/server/manager.rs:179-181 | the lookup finds exactly the registered session |
| Registry.TunnelManager.List | src/server/manager.rs:184-197 | every online client is listed exactly once |
| Traffic.MergeAddsOnce | src/server/traffic.rs:87-97 | a merge changes one client's total by exactly the delta, also where a zero delta is skipped |
| Traffic.TrafficTracker.Merge | src/server/traffic.rs:87-97 | the tracker's totals change as that says |
| Traffic.TrafficTracker.Overlay | src/server/traffic.rs:106-114 | live traffic is laid over the totals of exactly the clients in either table |
| Traffic.TrafficTracker.TakeSample | src/server/traffic.rs:106-123 | the history is always the last 200 points ever taken |
| Lifetimes.RegisterIs | src/server/manager.rs:142-154 | a handshake is entered if its client has no session, and is rejected otherwise |
| Lifetimes.KickRemoves | src/server/admin.rs:939-953 | a kick takes its client out of the table and leaves every other client alone |
| Lifetimes.KickCloses | src/server/manager.rs:116-133 | once it is recorded the gate opens for the client only after more than 60000 ms, and for others as before |
| Lifetimes.CleanupTakesOnlyItsOwn | src/server/manager.rs:166-176 | with the look and the removal as separate steps, a cleanup removes its own session and nothing else in every run whose kicks miss the gap |
| Lifetimes.SafeIffNoKickInAGap | src/server/manager.rs:166-176 | in every run, no kick landed in a gap if and only if every continuation from every point on, without further kicks in gaps, has cleanups that take only their own sessions |
| Lifetimes.TakesForeignIff | src/server/manager.rs:166-176 | in every run, a cleanup between its halves would take another session if and only if its entry was removed after it saw its own id and a session of the same client registered after that is still there |
| Lifetimes.ForeignIsLost | src/server/manager.rs:157-176 | then the removal takes that registered, live session out of the table |
| Lifetimes.KickInTheGapRemovesTheNewer | src/server/admin.rs:939-953 | from every state with a kick about to land in the gap, the client can pass the gate and register again, and the waiting removal then takes the new session |
| Lifetimes.TheGapIsReached | src/server/tunnel.rs:142-207 | six steps from the start reach such a state |
| Lifetimes.KickFreeMissesGaps | src/server/manager.rs:166-176 | runs without kicks meet the condition |
| Lifetimes.AdjacentHalvesHaveNoGap | src/server/manager.rs:166-176 | runs in which both halves of every cleanup are one step meet it, kicks or not |
| Lifetimes.OneSessionPerClient | src/server/tunnel.rs:162-207 | without kicks a client has at most one session that is registered or still to be cleaned up, and it is the one in the table |
| Accounting.TotalsAreExact | src/server/tunnel.rs:206-209 | in every run a client's total is the loaded value plus exactly one snapshot of each of its sessions that reached the end of its cleanup |
| Accounting.NothingIsCountedTwice | src/server/admin.rs:804-817 | in every run, kicks and split cleanups included, no query counts a session both as merged and as live, and it reports at most what the client's sessions have counted |
| Accounting.QueryAddsWhatIsLive | src/server/admin.rs:804-817 | a query that comes upon a client's session adds exactly its counters, to that client |
| Accounting.TrafficTotals | src/server/admin.rs:804-817 | run by itself the query reports each client's total plus the counters of its one online session |
| Accounting.LiveIsWhatWasRead | src/server/manager.rs:205-212 | a session is in the online reading exactly if the sampler came upon it in the table |
| Accounting.SampleCountsTwiceExactly | src/server/traffic.rs:106-123 | in every run a point is the loaded value plus each session once, at most what the sessions counted, plus the online readings of exactly the sessions both read and merged |
| Accounting.CountedTwiceIff | src/server/mod.rs:72-80 | in every run a point counts a session twice if and only if the sampler came upon it in the table and it had been merged when the totals were read |
| Accounting.ASampleCountsTwice | src/server/mod.rs:77 | a run whose only session is counted twice by its point |
| Lifetimes.GateHolds | src/server/tunnel.rs:118-127 | no handshake passes the gate within 60 seconds after a kick recorded before it |
| LoginLimiter.Limiter.RecordFailure | src/server/admin.rs:631-648 | one failure changes only its own address, as the history's next step says |
| LoginLimiter.Limiter.RecordSuccess | src/server/admin.rs:599-602 | a success clears the count of its own address and leaves a block alone |
| LoginLimiter.Limiter.IsBlocked | src/server/admin.rs:651-665 | the answer is whether the block has not ended, and asking forgets only an ended one |
| LoginLimiter.OpenersAgree | src/server/admin.rs:631-648 | the limiter begins a count exactly where the history alone says: at a failure with no window since the last success or fifth failure, or more than 30 minutes after the opener |
| LoginLimiter.FifthFailureBlocks | src/server/admin.rs:631-648 | a failure starts a block exactly if it is the fifth within 30 minutes of one that opened a counting window with no success between, and the block ends 30 minutes after it |
| LoginLimiter.BlockLasts | src/server/admin.rs:651-665 | whatever is asked, fails or succeeds, the block holds for exactly its 30 minutes unless another starts |
| LoginLimiter.AtMostSeven | src/server/admin.rs:631-648 | a closed 30-minute interval with no success in which no block starts holds at most 7 failures |
| LoginLimiter.SevenWithoutABlock | src/server/admin.rs:636-640 | and 7 are possible |
| Proxies.ProxyManager.Start | src/server/proxy.rs:39-85 | a rule starts exactly if its name is free, its type is known, it has an address and the address can be bound; a failure registers nothing |
| Proxies.ProxyManager.Bind | src/server/proxy.rs:55-67 | an endpoint can be bound exactly if no other program, no running rule and no session has a socket there |
| Proxies.ProxyManager.Stop | src/server/proxy.rs:91-102 | stopping removes the rule if it runs and says whether it did; what sessions hold stays held |
| Proxies.StartsIff | src/server/proxy.rs:39-85 | case by case, when a rule starts and which error it gives otherwise |
| Proxies.RunKeepsOwned | src/server/proxy.rs:55-67 | in every run of starts, stops and whatever happens around them, no endpoint has two owners among other programs, running listeners and held sockets |
| Proxies.StopFreesIff | src/server/proxy.rs:87-102 | in every run a stop frees the rule's address if and only if no session holds its socket, which is always so for TCP |
| Proxies.EntryStays | src/server/udp.rs:91-141 | an entry keeps its socket open until its session is gone or a running listener working with that session forgets it, and nothing else removes it |
| Proxies.ReaderOutlivesEntry | src/server/tunnel.rs:334-340 | a reader that holds an entry keeps its socket open, even when the entry is forgotten, until it has sent |
| Proxies.AnEntryIsMade | src/server/udp.rs:80-99 | for every UDP rule with a client three steps lead to an entry that holds its socket |
| Reload.AdminState.ApiReload | src/server/admin.rs:1203-1248 | the reload's answer, token, configured list, running rules, world and log are those of the two folds, on success and on every failure, whatever happens at its awaits |
| Reload.ReloadProgress | src/server/admin.rs:1217-1242 | up to the first failing start a reload walks through the midway states and the worlds they meet, and a failure leaves the midway state without the failing rule |
| Reload.ReloadSucceedsIff | src/server/admin.rs:1217-1243 | with distinct names and matching listeners a reload succeeds exactly if every changed or new rule can start beside the rules and in the world that it meets, and then exactly the rules on disk run |
| Reload.CalmReloadSucceedsIff | src/server/admin.rs:1217-1243 | while nothing else happens it succeeds exactly if they can all start in the world as it was before |
| Reload.ChangedUdpRuleRestartsIff | src/server/admin.rs:1226-1242 | in every run, a running UDP rule that is changed and keeps its address restarts if and only if no session holds its socket; otherwise the bind fails and only that rule is gone |
| Reload.HeldAddressFails | src/server/admin.rs:1226-1242 | from any state, while a session holds a socket at the address of a changed or new UDP rule the reload fails, at that rule if it is the first changed one, and the socket stays held |
| Reload.ReloadTwice | src/server/admin.rs:1226-1248 | two reloads in a row give the same failure, the rule stays down and the configured list stays the old one |
| Reload.ChangedUdpRuleFails | src/server/udp.rs:92-99 | for every UDP rule with a client a run with one datagram after which the reload of the changed rule fails, although it would start on its own |
| Reload.ReloadIsRun | src/server/admin.rs:1217-1242 | what a reload reaches, a run of starts, stops and moves reaches too |
| Reload.KeptRulesAreUntouched | src/server/admin.rs:1228-1231 | a rule identical in both lists keeps running and none of the events that the reload adds to the log is about it, even if the reload fails |
| Reload.ExchangedAddressesFail | src/server/admin.rs:1228-1241 | two rules that exchange addresses make the reload fail in every world and weather and leave only the second one, in its old version |
| Idle.NeverFires | src/server/tunnel.rs:378-393 | with heartbeats at most hb_max apart and one-way delays of at most hb_max + 5 s the monitor never fires, in any timed run |
| Idle.FiresInTime | src/server/tunnel.rs:378-393 | in every timed run it fires only after more than 3 hb_max + 10 s without a frame and no later than 5 s after that |
| Idle.TimeoutIsReached | src/server/tunnel.rs:379 | the bound cannot be shortened: a well-behaved run reaches it |
| Idle.FiresAsLate | src/server/tunnel.rs:378-393 | nor can the check interval: for every hb_max a run fires exactly 5 s after the timeout |
| Idle.IdleMonitor | src/server/tunnel.rs:378-393 | the loop returns at the first reading that is too old and at no earlier one |
| Idle.HeartbeatState.OnHeartbeatSent | src/protocol/heartbeat.rs:86-88 | the count is the heartbeats since the last acknowledgement, saturated |
| Idle.HeartbeatState.OnHeartbeatAck | src/protocol/heartbeat.rs:91-93 | an acknowledgement starts the count again |
| Idle.HeartbeatState.IsDead | src/protocol/heartbeat.rs:96-98 | the connection is given up exactly if the last three events are unanswered heartbeats |
| Rings.PushKeepsLast | src/server/audit.rs:96-100 | a bounded queue that drops its front when full always holds the last elements of its history |
| Audit.AuditLog.constructor | src/server/audit.rs:50-78 | a new log holds the last 500 entries that its file yields up to the first line that is not text |
| Audit.AuditLog.Record | src/server/audit.rs:81-101 | a record keeps the log at the last 500 of everything read and recorded, and appends one line if it can |
| Audit.AuditLog.Snapshot | src/server/audit.rs:104-106 | the snapshot is the log, newest first |
| Audit.RebuiltLogAgrees | src/server/audit.rs:54-65 | a log rebuilt from its fully written file equals the log that wrote it if the file it began with was readable to its end, and otherwise misses what was written since |
| Audit.RecordAndRestart | src/server/audit.rs:50-101 | any number of records that reach the file and then a restart give the same entries, the same file and the same history |
| Audit.FilterMembers | src/server/admin.rs:1168-1179 | a filter keeps exactly the entries it is meant to keep, each as often as it occurs |
| Audit.FilterTwice | src/server/admin.rs:1168-1179 | filters applied one after the other select what all of them together do |
| Audit.AuditLog.ApiAudit | src/server/admin.rs:1155-1196 | page and size are those asked for or the nearest of 1 and 200, every entry returned is in the log and meets each filter given, total is how many do, and the items are the page asked for of the filtered snapshot |
| Audit.PagesConcatenate | src/server/admin.rs:1180-1186 | as long as no start wraps, pages in order are the list from its beginning with nothing twice or missing |
| Audit.AllPagesAreTheSnapshot | src/server/admin.rs:1162-1186 | for every filter and every page size the pages together are exactly the filtered snapshot |
| Audit.PageIsMeantIff | src/server/admin.rs:1181-1186 | a page is the one meant exactly if its 64-bit start does not wrap or wraps to behind the last entry |
| Audit.WrappedPageRepeats | src/server/admin.rs:1181-1186 | page 2^63 + 1 at two entries a page is the first page again |

## Left out

- Sockets, TLS, task scheduling and file writes: they are steps, events or parameters (what a read returns, whether a
  send, a dial, a bind or a write succeeds).
- Channel capacities and every claim that something eventually happens. A session whose acknowledgement could not be
  written stays registered, as in the code.
- HMAC, passwords, captchas, tokens and session uuids: session ids are distinct numbers, a handshake that fails to
  authenticate stops before it registers.
- UTF-8: which byte strings are valid text, and what the lossy conversion makes of others, are parameters of the codecs.
- Strings in the payloads of frames that tasks send are taken to fit their 16-bit length, as the callers must see to;
  the codecs themselves are modelled without that. One read of a socket returns at most 32 KiB.
- 64-bit wrap-around of byte counters and of times since the epoch, and 32-bit platforms.
- The client's dialer, which drops what follows the acknowledgement in its buffer: the client starts with an empty one.
- Whether handshakes are admitted for reasons other than the kick gate and the session table (client id syntax, version,
  token).
- The branches of `handle_public_conn` and of the UDP listener for a rule without a client and for a client that is
  offline: they return before they touch a session.
- UDP across reconnects: `UdpRouting` is about one session. A listener's peer map outlives the session in the code, and
  ids start at 2 again in the next one.
- Several tasks at once in `Listener`, `Forwarder` and `UdpTasks`: there one task runs with the reader dispatching whole
  frames at its awaits, or a listener runs its rounds by itself. Any number of tasks, and a dispatch that itself waits
  while others run, are in `Server`, `Client`, `Delivery`, `Wires` and `UdpRouting`.
- Increments of a session's counters after its merge snapshot: they can happen in `Lifetimes` and appear in no total, as
  in the code.
- The order in which concurrent requests reach the login limiter's two tables and the audit log's file and memory: both
  are modelled one call at a time.
- Different spellings of one listen address, and port 0, which never collides in the code: endpoints are compared as
  they are written.
- The moment between the start and the return of a UDP listener without a client: it is taken to give its socket up at
  once.
- Rule edits through the other admin calls, and a reload of a list with duplicate names or with listeners that do not
  match it: the fold of `Reload.AdminState.ApiReload` covers them, the theorems about it do not.
- HTTP, the query string of the audit page, static files, metrics, webhooks, configuration files, logging and the user
  interface.
- Delivery.UpstreamDelivery: states a prefix of the bytes behind the early chunks and not of all bytes, because data
  dispatched before the table insert is dropped.
- Forwarder.ForwardLocal: takes frames that the reader can parse and that do not open the same stream again; the first
  is what `parse_error_payload` needs, the second is `Delivery.OpenComesOnce`.
- Idle.TimeoutIsReached: is about hb_max of at least five seconds, because with shorter intervals the run needs more
  heartbeats.
