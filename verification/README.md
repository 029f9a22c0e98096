# A verified model of the multiplexing session

The repository carries QUIC-like streams over one WebSocket: a varint and frame codec, a session that opens,
feeds, stops and retires streams under credit-based flow control, and a writer that packs frames into WebSocket
messages. There is a native session (Tokio, several tasks) and a browser session (single-threaded, always the
client). This project models all four layers in Dafny and proves what they promise, over every input, every
interleaving and every pair of honest endpoints, each with limits of its own.

## How the model is built

- `VarInts`, `Frames`: the wire codec of section 16 of RFC 9000 and the seven frame kinds, as functions, with the
  buffer-appending and cursor-advancing code as methods proved equal to them. The bytes themselves are pinned to the
  documented formats (`WireForm`, `DecodeForm`, `WireTable`, `DecodeTable`), in both directions.
- `SessionLimits`, `Endpoints`: one endpoint as a value (`Endpoint`) and one `Action` for each critical section,
  queue operation and inbound frame of the native session. `Step` performs an action, `Run` a whole schedule, so
  a schedule is an interleaving of the application's tasks, the inbound task and the writer. `room` says whether
  the bounded queue accepts a frame offered without waiting, and `queued` and `credited` whether it takes the frames
  that a native session would wait to queue and a browser session offers once.
- `Views`: a small automaton that reads a log of frames and says what they mean for one stream. The sender runs it
  over what it enqueued and the receiver over what it processed, which is how the two ends are compared. Grants
  bypass the outbound queue, so `CreditCommutes` shows that overtaking does not change what a log means.
- `EndpointInvariant`, `EndpointTheorems`: what every action keeps against an arbitrary peer, and the theorems over
  all schedules that follow.
- `Reactions`: what an endpoint makes of each frame of any peer, stated from the identifier bits, the frontiers and the
  limits: whether it ends the session, with which code, and otherwise what it changes.
- `Links`, `TwoParty`: two endpoints joined by a FIFO channel each way; `Play` runs an arbitrary sequence of actions
  and deliveries of both. The two have limits of their own (`Start(la, lb)`), as nothing negotiates them, and each may
  be native or a browser: every open and every delivery carries its queue's answers. The two-party theorems hold in
  every reachable state and in both directions; `flipped` says which side is looked at, `Ours` and `Theirs` are its
  limits and those of its peer.
- `LogNews`: which frames a step can put into the log. `Liveness`: which streams are never given credit or are given
  up halfway through their open, and that all others cannot run dry. `Exchanges`, `Draining`: that from every reachable
  state a live stream can be drained. `FirstStream`, `Overflow`, `FrameSizes`: when honest endpoints can fill a receive
  queue, and when one makes data frames that the other does not take.
- `Registry`, `RegistryRuns`: when the receive map leaves its limit and when the credit slots run out, as conditions
  on steps and on runs, with runs that get there for every choice of limits. `CloseFrames`: the same for closing
  frames that no batch takes.
- `CreditOrder`: the documented requirement that the credits of a stream grow, although grants bypass the queue.
  `GrantOrder`: for which limits one endpoint alone can break it.
- `WireSystem`: two endpoints, their writers and their inbound loops, joined by WebSocket messages made of bytes. Every
  run of it is a run of `TwoParty`, with batches and half-handled messages in flight. `HonestClosings`: the closing
  frames that honest endpoints queue. `NetRounds`, `Oversize`: when one of their messages is too large to be read, and
  the run over the WebSocket that gets there.
- `SendFlowAtomics`: the compare-and-swap loops of the send credit, one atomic access at a time, for any number of
  tasks in any interleaving.
- `WriterLoop`, `Transmission`: both batching loops, as turn functions with run theorems, and as code over bytes
  (`WriterTask`, `FillBatch`), cancellation and transport failure included; then what the receiving side decodes.
- `Sessions`, `Handles`: the native session as an object whose methods update its fields. Each method appends the
  actions it performed to a ghost `history`, and the object's state is always `Run` of that history, so every
  theorem about schedules is a theorem about session objects (`Reachable`). Calls that wait return `Pending` and
  are resumed or completed, with anything else happening in between; `HandleStable` says why that is safe.
- `Browsers`: the browser's open calls and frame handler, its exact agreement with the native one, a starved run, and
  a run that code 2 ends.

## Findings

- Two honest endpoints can end their session with code 2. A browser's `open_bi` that queues its open but not its
  initial credit gives the stream up without telling the peer; when the peer finishes that stream, its FIN arrives for
  a stream the browser does not know. `Browsers.HalfOpenRun` is such a run, for every choice of valid limits.
  `Liveness.HalfIff` says that those streams are exactly the own ones whose credit the queue refused, and
  `Liveness.WholeOpensAreSafe` that a side whose opens find room for both frames, or for none, never meets it. The
  peer can write nothing to such a stream, as its limit stays zero (`Liveness.StarvedForever`), but it can finish it.
- The other way to code 2 is a data frame larger than the receiver takes ("stream data too large"), because nothing
  tells a sender the receiver's `max_stream_data_per_frame`. Some honest run gets there if and only if both the largest
  write of the sender (16 KiB or its own frame limit) and the window of the receiver exceed the receiver's frame limit
  (`FrameSizes.StrainedIff`, with its run). With equal limits it cannot happen. `TwoParty.NoProtocolErrors` says that
  code 1 never occurs and code 2 exactly by these two events.
- The browser's handler differs from the native one exactly when its outbound queue refuses a frame that the native
  session would wait to queue: the initial credit of an accepted stream, or the reset that answers `StopSending`
  (`Browsers.Agreement`, an if-and-only-if). The second ends the session. The first starves the stream:
  `Browsers.StarvedRun` is such a run, for every choice of valid limits; `Liveness.StarvedForever` says that in every
  continuation the sender's limit stays zero; and `Liveness.NoCreditDeadlock` says that a drained stream has credit
  left if and only if its initial credit was queued.
- A live stream can always be drained by deliveries, reads and the writers, unless a session ends on the way
  (`Draining.Drains`). Between native sessions a frame in transit ends a session exactly if it is a closing frame, which
  takes an error of the peer, an open that finds no slot at its receiver, or data that is larger than the receiver
  takes or finds its queue full (`Draining.ClosesIff`).
  A receiver that reads before each data frame meets no full queue, so between sessions that take each other's data
  frames, as sessions with equal limits do, and with no open in transit, the stream is drained and its sender has
  credit (`Draining.CreditComes`).
- The documentation requires announced credits to be monotonic. An endpoint by itself does not ensure it: its
  initial credit goes through the outbound queue and later grants bypass it, so a peer that sends data before it
  was given credit (nothing stops it, the receive window is open from the start) can see a larger limit first and
  the initial one after it, for exactly those limits whose first grant fits the varint range
  (`GrantOrder.GrantOvertakes`). `CreditOrder.StepOrder` gives the exact condition for
  every step, `CreditOrder.RunOrder` for every run, and `CreditOrder.CreditsRise` shows that two honest endpoints
  never meet it.
- The credit argument needs `consumed + stream_window_update_threshold` within the varint range, not the window:
  in the last threshold's worth of bytes below 2^62 - 1 no further grant is issued (`Liveness.LastGrant`), and before
  it reading grants exactly when a threshold's worth is due (`Liveness.GrantIff`). `NoCreditDeadlock` is stated up to
  that point, which is more than the window's worth that the limits promise.
- The receive map is not bounded by `max_open_streams`: a local `open_bi` inserts without a check. A step leaves the
  bound exactly by such an open with every slot taken (`Registry.StepStreams`), a run exactly by taking such a step
  (`Registry.RunStreams`), and for every limit below the number of identifiers some run does
  (`RegistryRuns.LimitCanBeExceeded`). Only then can the credit slots run out, which ends the session
  (`Registry.NoSlotShutdown`, `RegistryRuns.SlotsCanRunOut`).
- A `ConnectionClose` may be larger than a batch: against some peer an endpoint queues one if and only if the batch
  limit is below the length of the longest reason (`CloseFrames.CloseFitsIff`). Every other frame fits once the limits
  are valid. The writer sends such a frame as a message of its own, and the receiver takes it if it is within the
  message limit.
- A closing frame that is not ends the receiving session in another way: with code 2 in a browser, without a code in
  a native session, whose transport has the same limit and rejects the message first (`Oversize.TooLargeCloses`).
  Between honest endpoints whose message limits take each other's batches, some run meets such a message if and only if
  one of those limits is below the longest closing frame that the other side queues (`Oversize.RejectIff`), and then
  native sessions alone meet it: 45 bytes as long as the other side's send slots can run out, otherwise less than any
  valid message limit.
- Honest endpoints can end a session with "receive queue full" if and only if its event queue is no longer than its
  window, whatever the limits of its peer (`Overflow.OverflowIff`): many small writes to a reader that does not read.
  The default limits are of that kind (`FrameSizes.DefaultLimits`).

## Model

| member | source | states |
|---|---|---|
| `VarInts.RoundTrip` | websock-mux-proto/src/varint.rs:141-223 | decoding an encoding followed by any bytes gives the value back and leaves exactly those bytes |
| `VarInts.WireForm` | websock-mux-proto/src/varint.rs:210-223 | the bytes of every value: the shortest of 1, 2, 4 and 8 bytes, its length in the top two bits, the value most significant byte first |
| `VarInts.DecodeForm` | websock-mux-proto/src/varint.rs:141-181 | what any bytes decode to, by the top two bits of the first: a value of 1, 2, 4 or 8 bytes, or a failure if they are not there |
| `VarInts.ProperPrefixFails` | websock-mux-proto/src/varint.rs:141-181 | no proper prefix of an encoding decodes: encodings are prefix-free |
| `VarInts.DecodedInRange` | websock-mux-proto/src/varint.rs:141-181 | whatever bytes are decoded, the value can be encoded again |
| `VarInts.Cursor.GetVarInt` | websock-mux-proto/src/varint.rs:141-181 | reading byte by byte with a cursor agrees with decoding, on success, remaining bytes and failure |
| `Frames.IdBijection` | websock-mux-proto/src/stream.rs:20-54 | identifiers and (counter, initiator, direction) determine each other, and allocation fails exactly from counter 2^60 on |
| `Frames.FrameRoundTrip` | websock-mux-proto/src/stream.rs:133-226 | decoding an encoded frame followed by any bytes gives the frame back and leaves exactly those bytes |
| `Frames.WireTable` | docs/mux-protocol.md:46-56 | the bytes of every frame, row by row: the tag 0 to 6, then its fields in the documented order |
| `Frames.DecodeTable` | websock-mux-proto/src/stream.rs:177-226 | any bytes decode to a frame and a rest if and only if they start with its documented tag and fields, read as varints, and go on with that rest |
| `Frames.DecodeErrors` | websock-mux-proto/src/stream.rs:177-226 | bytes are refused for an unknown tag, for a fin flag, or for a reason that is no text, in each case if and only if they hold one |
| `Frames.FrameProperPrefixFails` | websock-mux-proto/src/stream.rs:177-226 | every proper prefix of an encoded frame fails as truncated, whatever the frame |
| `Frames.DecodedFrameInRange` | websock-mux-proto/src/stream.rs:177-226 | any frame that decodes from arbitrary bytes can be encoded again |
| `Frames.EncodedLenExact` | websock-mux-proto/src/stream.rs:113-130 | the length computed in advance is the length of the encoding |
| `Frames.WriteFrame` | websock-mux-proto/src/stream.rs:133-174 | appending field by field yields the encoding, of the predicted length |
| `Frames.MessageRoundTrip` | websock-tungstenite-mux/src/session.rs:1075-1090 | a message of concatenated encodings decodes to exactly that list of frames, with no failure |
| `Frames.CutMessage` | websock-tungstenite-mux/src/session.rs:1075-1090 | a message cut inside a frame yields the whole frames before the cut and a truncation error |
| `Frames.DecodeMessage` | websock-tungstenite-mux/src/session.rs:1070-1094 | the inbound loop refuses an oversized message with code 2, otherwise hands over the frames up to the first that does not decode, with code 1 if there is one |
| `SessionLimits.Validate` | websock-tungstenite-mux/src/session.rs:73-121 | limits are accepted if and only if all are positive and consistent with each other |
| `SessionLimits.TightBatches` | websock-tungstenite-mux/src/session.rs:93-107 | 33 bytes more than the largest data frame are enough for a batch, and 32 are not |
| `FrameSizes.DefaultLimits` | websock-tungstenite-mux/src/session.rs:52-69 | the default limits are valid, sessions that have them take each other's data frames, and some run of theirs fills a receive queue |
| `EndpointInvariant.StepKeeps` | websock-tungstenite-mux/src/session.rs:1390-1534 | every action, including any frame from any peer, keeps every stream's invariant: frontiers, legal directions, credit accounting, queued and delivered bytes, newest grant pending or logged, no misplaced frame in the log |
| `EndpointTheorems.RunKeeps` | websock-tungstenite-mux/src/session.rs:1390-1534 | that invariant holds after every schedule |
| `Reactions.Verdict` | websock-tungstenite-mux/src/session.rs:1390-1534 | for every open session and every frame of any peer: it ends with code 1 if and only if the frame is misplaced (wrong initiator, direction or order of an open, a reset or stop at or above the frontier or against the direction), with code 2 for data that is too large, unknown or beyond the limit, with code 3 for lack of room, and without a code only by a closing frame or a stop whose answer a browser cannot queue; the peer is told if there is room |
| `Reactions.CloseIsTerminal` | websock-tungstenite-mux/src/session.rs:1528-1531 | a received closing frame closes the session and empties its registries, without a reply and without a code; streams that wait to be accepted and data that arrived stay |
| `Reactions.RejectVerdict` | websock-tungstenite-mux/src/session.rs:1070-1111 | bytes that do not decode and text end a session with code 1, messages that are too large with code 2 |
| `Reactions.OpenEffect` | websock-tungstenite-mux/src/session.rs:1392-1460 | an open that does not end the session moves the frontier past it, registers both directions it has, announces the window and queues the stream last to be accepted |
| `Reactions.DataEffect` | websock-tungstenite-mux/src/session.rs:1461-1508 | data that does not end the session is counted and queued last for its reader unless the stream was stopped, and a FIN retires the receive direction |
| `Reactions.EndEffect` | websock-tungstenite-mux/src/session.rs:1509-1521 | a stop of a live flow retires it and queues a reset of the same code, a reset retires the receive state, and neither changes anything else |
| `Reactions.CreditEffect` | websock-tungstenite-mux/src/session.rs:1522-1527 | credit raises the limit of its flow to the largest announced and changes nothing else |
| `Reactions.PopEffect` | websock-tungstenite-mux/src/session.rs:824-841 | a read takes the oldest event, and tells of the end exactly once nothing is left and the stream is gone |
| `Reactions.NthOpen` | websock-tungstenite-mux/src/session.rs:172-205 | in every run the stream that an open gets is numbered by the opens asked for before it, failed ones included, and has flow, receive state and announcements of its direction |
| `EndpointTheorems.OutgoingLogInOrder` | websock-tungstenite-mux/src/session.rs:1683-1702 | in all interleavings and for any peer: no data frame follows the FIN or a reset of its stream, opens carry strictly increasing counters of the endpoint's own role, and data, resets and stop requests name an own stream only after its open |
| `EndpointTheorems.ReceiveWindow` | websock-tungstenite-mux/src/session.rs:758-779 | for any peer and any mix of reads, an unstopped stream has received = consumed + pending + queued, buffers at most one window, and its granted limit is within one window of consumption and less than a threshold short of it |
| `EndpointTheorems.RunSettles` | websock-tungstenite-mux/src/session.rs:1664-1677 | along any run a known stream never regains a receive state or send flow it lost, and one that is stopped, or retired with no credit pending, gets no credit again |
| `EndpointTheorems.StopFreezesCredit` | websock-tungstenite-mux/src/session.rs:882-924 | after a stop the limit never changes, no credit is pending or logged for the stream again, and what it accepts stays within the limit it had |
| `EndpointTheorems.HeldIsKnown` | websock-tungstenite-mux/src/session.rs:1664-1677 | every key of every registry lies below its frontier and has a legal direction |
| `EndpointTheorems.AcceptedOpenIsNew` | websock-tungstenite-mux/src/session.rs:1777-1797 | an open that passes validation names a stream above all held ones of its kind, so the duplicate-stream branches cannot be taken |
| `EndpointTheorems.CreditSlots` | websock-tungstenite-mux/src/session.rs:1254-1280 | the pending-credit map keeps its bound through pruning, and its slots run out only when more than `max_open_streams` receive states are live |
| `Registry.StepStreams` | websock-tungstenite-mux/src/session.rs:1579-1592 | from a receive map within its limit, a step leaves the limit if and only if it is a local bidirectional open that gets an identifier, a send slot and room for its frames while every receive slot is taken |
| `Registry.RunStreams` | websock-tungstenite-mux/src/session.rs:1579-1592 | a run against any peer keeps the receive map within its limit if and only if it takes no such step |
| `Registry.NoSlotShutdown` | websock-tungstenite-mux/src/session.rs:1264-1274 | a run without such a step never ends for want of a credit slot |
| `RegistryRuns.LimitCanBeExceeded` | websock-tungstenite-mux/src/session.rs:1579-1592 | for every choice of valid limits, some run exceeds the limit if and only if it is below the number of identifiers that can be received on |
| `RegistryRuns.SlotsCanRunOut` | websock-tungstenite-mux/src/session.rs:1264-1274 | for every choice of valid limits, some run ends the session for want of a credit slot if and only if the limit can be exceeded and a first grant fits the varint range |
| `EndpointTheorems.RunBounded` | websock-tungstenite-mux/src/session.rs:1620-1635 | in every run, for any peer, send flows and pending credits stay within `max_open_streams`, and accept and receive queues within their lengths |
| `EndpointTheorems.RunWire` | websock-tungstenite-mux/src/session.rs:1683-1711 | in every run every frame sent or queued can be encoded and carries at most `max_stream_data_per_frame` bytes |
| `Views.CreditCommutes` | websock-tungstenite-mux/src/session.rs:1164-1172 | a credit that overtakes queued frames leaves the meaning of the whole log unchanged, for every other stream and for its own once it is ready |
| `TwoParty.PlayInv` | websock-tungstenite-mux/src/session.rs:1390-1534 | every action and delivery of two honest endpoints, each with its own limits, keeps the relation between the two ends of every stream |
| `TwoParty.NoProtocolErrors` | websock-tungstenite-mux/src/session.rs:1390-1534 | two honest endpoints with any two valid limits, native or browser, never raise error code 1 while handling frames, however opens, data, FIN, resets, stops and credits cross, and code 2 if and only if one handles a FIN of a stream that it gave up halfway through its open, or a data frame larger than it takes |
| `TwoParty.CreditSafety` | websock-tungstenite-mux/src/session.rs:1465-1480 | for any two valid limits, in every reachable state: received + in transit = sent, reserved credit is accounted, sent never exceeds the sender's limit, and that never exceeds the receiver's |
| `TwoParty.StreamIntegrity` | websock-tungstenite-mux/src/session.rs:781-880 | delivered bytes are a prefix of the written bytes, equal once the FIN was read and nothing is pending; nothing is lost on an open, unstopped stream |
| `TwoParty.EndOfStream` | websock-tungstenite-mux/src/session.rs:824-880 | whenever a reader that did not stop its stream is told of the end on an open session, it has read every byte the peer ever queued for it; the FIN was read exactly when the peer queued one, otherwise a reset cut the stream off |
| `Liveness.StarvedOrTold` | websock-wasm-mux/src/session.rs:1215-1218 | in every run a stream that can be received on, the peer's or an own one, was announced credit unless the queue refused its initial credit, and after a refusal it is never announced any |
| `Liveness.NativeNeverRefuses` | websock-tungstenite-mux/src/session.rs:1536-1577 | a side whose opens and deliveries are all native, which wait for the queue, never refuses an initial credit |
| `Liveness.HalfIff` | websock-wasm-mux/src/session.rs:163-181 | in every run the streams that a side has given up halfway through their open are exactly its own streams whose initial credit the queue refused |
| `Liveness.WholeOpensAreSafe` | websock-wasm-mux/src/session.rs:163-181 | a side whose bidirectional opens find room for both frames or for none is never ended by code 1, and by code 2 if and only if it handles a data frame larger than it takes, whatever the peer's opens find |
| `Liveness.NewestGrant` | websock-tungstenite-mux/src/session.rs:1254-1298 | unless its initial credit was refused, the limit of a live, unstopped stream is the largest of the credits logged and the one pending, and it is ahead of consumption |
| `Liveness.NoCreditDeadlock` | websock-tungstenite-mux/src/session.rs:758-779 | when all of a live, unstopped stream is delivered and read and no credit is on its way, its sender has credit left if and only if the initial credit was queued; otherwise it has sent nothing and its limit is zero |
| `Liveness.StarvedForever` | websock-wasm-mux/src/session.rs:1215-1218 | after a refused initial credit, in every continuation, the sender's limit stays zero and no byte of the stream is ever queued |
| `Liveness.GrantIff` | websock-tungstenite-mux/src/session.rs:758-779 | for any peer, reading raises a live stream's limit and leaves a grant pending, or ends the session, exactly when a threshold's worth is due, and otherwise changes neither |
| `Liveness.LastGrant` | websock-tungstenite-mux/src/session.rs:758-779 | in the last threshold's worth of the varint range reading leaves limits and pending credit as they are |
| `Draining.Drains` | websock-tungstenite-mux/src/session.rs:758-880 | from every reachable state in which both sessions are open and a stream is live, unstopped and unfinished, a continuation made of deliveries, writer steps, reads and the end of a write to the stream that holds credit drains the stream, or ends one of the sessions; it ends neither between native sessions that take each other's data frames while no open is in transit |
| `Draining.CreditComes` | websock-tungstenite-mux/src/session.rs:758-880 | between such sessions that continuation leaves the sender with credit, up to the end of the varint range |
| `Draining.ClosesIff` | websock-tungstenite-mux/src/session.rs:1390-1534 | for any two valid limits, in every reachable state of native sessions, the sender closed or not, handling the next frame in transit ends an open session if and only if that frame is a closing one, which takes an error of its sender, an open for which it lacks a receive slot, a send slot or room in its accept queue, or data that is larger than it takes or finds its queue full |
| `Overflow.NeverOverflows` | websock-tungstenite-mux/src/session.rs:1481-1508 | a side whose event queue is longer than its window, whatever the limits of its honest peer, never has a frame in flight to it that it would refuse as overfilling a queue |
| `Overflow.OverflowIff` | websock-tungstenite-mux/src/session.rs:1481-1508 | for either side and every pair of valid limits, some honest run reaches such a refusal if and only if its event queue is no longer than its window |
| `FrameSizes.DataInTransit` | websock-tungstenite-mux/src/session.rs:1461-1480 | every data frame in transit between honest endpoints is no larger than the largest write of its sender and than the window of its receiver |
| `FrameSizes.StrainedIff` | websock-tungstenite-mux/src/session.rs:1462-1463 | for either side and every pair of valid limits, some honest run brings it a data frame larger than it takes if and only if the largest write of its peer and its own window are both larger than that |
| `CreditOrder.CreditsRise` | docs/mux-protocol.md:87-90 | between two honest endpoints, in every run, the credits announced for a stream strictly increase on the wire |
| `CreditOrder.StepOrder` | websock-tungstenite-mux/src/session.rs:1164-1172 | for any peer, a step keeps a stream's credits increasing, with any pending grant above them, if and only if it does not send a grant past a queued credit of that stream |
| `CreditOrder.RunOrder` | websock-tungstenite-mux/src/session.rs:1164-1172 | for any peer and any schedule, the credits of a stream increase in the whole log if and only if no step sent a grant past a queued credit of that stream |
| `GrantOrder.GrantOvertakes` | websock-tungstenite-mux/src/session.rs:1536-1577 | for every choice of valid limits and either role, some schedule of an endpoint sends a credit that is not above the one before it if and only if the initial window and the update threshold together are within the varint range |
| `SendFlowAtomics.EveryInterleaving` | websock-tungstenite-mux/src/session.rs:268-316 | any number of tasks in any interleaving of loads, compare-and-swaps and releases: sent is exactly the sum of unreleased grants, so no release underflows, it never exceeds the limit, and the limit never falls |
| `SendFlowAtomics.TickKeeps` | websock-tungstenite-mux/src/session.rs:268-316 | every single memory access of any task is one step of an atomic credit counter, or none |
| `SendFlowAtomics.GrantIsCovered` | websock-tungstenite-mux/src/session.rs:268-290 | a compare-and-swap that succeeds grants exactly the smaller of what was asked and what it saw left, at least one byte, out of credit available at that moment, also when the counter changed and came back |
| `SendFlowAtomics.RefusalWasExhausted` | websock-tungstenite-mux/src/session.rs:268-290 | a reservation gives up only if credit was exhausted at the moment it loaded the counter |
| `SendFlowAtomics.LoopsEnd` | websock-tungstenite-mux/src/session.rs:268-316 | a reservation ends only with a grant or on exhausted credit, and a raise only once the limit has reached its target, whoever raised it |
| `SendFlowAtomics.Uninterrupted` | websock-tungstenite-mux/src/session.rs:268-290 | run without interference, the two loops are the atomic reserve and the atomic raise of the session model |
| `WriterLoop.WriterRun` | websock-tungstenite-mux/src/session.rs:1147-1246 | over every sequence of commands, credits, sink failures, cancellation and peer close: what is sent plus the batch is what was taken, in order; messages keep the batch limits; a batch waits only while commands are queued; after the close frame no data or pong is written |
| `WriterLoop.FlushBarrier` | websock-tungstenite-mux/src/session.rs:601-642 | while closing has not begun, a flush is reported done only after every frame the handle wrote before it reached the sink, also when an earlier flush was abandoned |
| `WriterLoop.FlushAnswered` | websock-tungstenite-mux/src/session.rs:1219-1227 | a flush that is taken is acknowledged if and only if the pending batch and the sink's own flush go through, and the loop ends exactly if the batch fails |
| `WriterLoop.FlushComes` | websock-tungstenite-mux/src/session.rs:601-642 | in every run, on a sink that works from then on, a handle that waits for a flush finds its answer after as many turns as commands are before it |
| `WriterLoop.PongWritten` | websock-tungstenite-mux/src/session.rs:1210-1218 | a pong follows the pending batch, unless closing has begun, and a failing sink ends the loop |
| `WriterLoop.ShutdownWritten` | websock-tungstenite-mux/src/session.rs:1228-1243 | a shutdown sends the pending batch and then the close frame, which is remembered exactly if both go through |
| `WriterLoop.EndingWritten` | websock-tungstenite-mux/src/session.rs:1155-1163 | cancellation sends what is pending and the close frame, the peer's close drops what is pending and is answered, and both end the loop |
| `WriterLoop.FrameWaits` | websock-tungstenite-mux/src/session.rs:1183-1209 | a frame stays in the batch if and only if there is room left for more and commands are queued |
| `Transmission.WriterTask.Flush` | websock-tungstenite-mux/src/session.rs:1130-1145 | the byte buffer goes out as one message and is emptied, following the model |
| `Transmission.WriterTask.TakeFrame` | websock-tungstenite-mux/src/session.rs:1183-1209 | the byte-level frame branch follows the model's frame step |
| `Transmission.WriterTask.TakePong` | websock-tungstenite-mux/src/session.rs:1210-1218 | pending bytes go out before the pong |
| `Transmission.WriterTask.TakeFlush` | websock-tungstenite-mux/src/session.rs:1219-1227 | a flush is answered if and only if the pending bytes and the sink's flush go through, with success unless closing has begun, and the loop ends exactly if the bytes do not |
| `Transmission.WriterTask.TakeShutdown` | websock-tungstenite-mux/src/session.rs:1228-1243 | pending bytes go out before the close frame, which is remembered; a failing sink ends the loop |
| `Transmission.WriterTask.TakeNext` | websock-tungstenite-mux/src/session.rs:1178-1244 | dispatching a command is one turn of the model |
| `Transmission.WriterTask.TakeCancel` | websock-tungstenite-mux/src/session.rs:1159-1163 | on cancellation pending bytes go out before the close frame and the loop ends |
| `Transmission.WriterTask.TakePeerClose` | websock-tungstenite-mux/src/session.rs:1155-1158 | when the peer has closed, the batch is dropped, a close frame answers and the loop ends |
| `Transmission.WriterTask.Serve` | websock-tungstenite-mux/src/session.rs:1152-1245 | over every sequence of queued commands, credits, outcomes, cancellation and peer close, the byte-level loop is the model's run, keeps its invariant, and leaves no byte behind while it runs with an empty queue |
| `Transmission.FillKeeps` | websock-wasm-mux/src/session.rs:1124-1142 | a round of the browser's loop loses and reorders nothing and keeps the batch limits, with the carried frame next in line |
| `Transmission.FillGreedy` | websock-wasm-mux/src/session.rs:1124-1142 | a round ends only with a full batch, an empty queue, or a next frame that does not fit, which is carried over |
| `Transmission.FillBatch` | websock-wasm-mux/src/session.rs:1115-1146 | the browser's batching loop over bytes computes that round |
| `Transmission.BrowserRun` | websock-wasm-mux/src/session.rs:1103-1150 | over every run, until a send fails, queued frames are sent in queue order and credits in the order taken, none lost or repeated, carry-over included, every message within the limits; after a failure what was sent is a prefix of each |
| `Transmission.BrowserSendsAll` | websock-wasm-mux/src/session.rs:1103-1150 | from every running state of the browser's loop, on a connection that works, at most as many sends as frames wait have sent everything ever queued |
| `Transmission.FrameFits` | websock-tungstenite-mux/src/session.rs:93-107 | with valid limits every frame but a closing one fits a batch by itself, and a frame fits by itself into a message of any size that takes batches if and only if it is no closing frame or its reason fits |
| `Transmission.MessageFits` | websock-tungstenite-mux/src/session.rs:93-107 | a message that keeps the batch limits is within the message limit of a receiver that takes batches if and only if its closing frames are |
| `CloseFrames.CloseFitsIff` | websock-tungstenite-mux/src/session.rs:1748-1759 | for every choice of valid limits, some run queues a closing frame larger than a batch if and only if the batch limit is below the length of the longest reason |
| `Transmission.WireTransparent` | websock-tungstenite-mux/src/session.rs:1070-1094 | however frames were batched, the receiver decodes exactly the frames sent, in order, without failure |
| `Transmission.SessionOverWire` | websock-tungstenite-mux/src/session.rs:1044-1246 | for every run of a session, every sink that is given to carry exactly the frames sent within the batch limits, and every receiver whose message limit takes batches: it decodes exactly those frames and accepts a message if and only if its closing frames are within that limit; that the writer's sink carries what was sent is `WireSystem.OverWebSocket` |
| `WireSystem.OverWebSocket` | websock-tungstenite-mux/src/session.rs:1044-1246 | for any two valid limits whose message limits take each other's batches and closing frames, every run of two endpoints whose frames are queued as commands, batched, sent as bytes, decoded and handled one by one is a run of the two-party system: what a side has read is what it handled and what waits in its inbox, what the messages carry is a prefix of what was sent, none fails to decode and none is too large |
| `WireSystem.SimStep` | websock-tungstenite-mux/src/session.rs:1044-1246 | for any two valid limits whose message limits take each other's batches, each step of a side, of its writer or of its inbound loop is one move of the two-party system or none, unless the message it is about to read is too large |
| `WireSystem.NeverTooLarge` | websock-tungstenite-mux/src/session.rs:1070-1074 | a side whose message limit also takes the longest closing frame of the other is never about to read a message that is too large |
| `WireSystem.EndToEnd` | websock-tungstenite-mux/src/session.rs:1044-1246 | so over the bytes, in every run, a session ends with no error but code 3, or code 2 with a stream of its own given up halfway through its open or with a frame limit below what its peer makes, and what an application has read of a stream is a prefix of what its peer wrote, all of it once it has read past the FIN |
| `HonestClosings.ModestDeliver` | websock-tungstenite-mux/src/session.rs:1390-1534 | handling any frame of an honest peer queues no closing frame longer than the reason for a lack of send slots, or than that for data on an unknown stream if the slots cannot run out, and queues one only with an error code |
| `NetRounds.Pass` | websock-tungstenite-mux/src/session.rs:1044-1246 | from any state between messages, for any two valid limits whose message limits take each other's batches: one native side performs any list of actions, its writer sends all that is queued and the other side reads and handles it, as the two-party system does it frame by frame; or a message on the way is too large, which takes an error of its sender |
| `NetRounds.WriterSteps` | websock-tungstenite-mux/src/session.rs:1147-1246 | the writer's steps that a pass does not need: a pending credit is sent, a command that carries no frame is queued, and cancellation and the peer's close end the writer |
| `NetRounds.InboundSteps` | websock-tungstenite-mux/src/session.rs:1044-1111 | the inbound loop's: bytes that do not decode are rejected after the frames before them are handled, and the peer's close frame closes the session |
| `Oversize.RejectIff` | websock-tungstenite-mux/src/session.rs:1070-1074 | for every two valid limits whose message limits take each other's batches, some run of honest endpoints over the WebSocket reaches a message that is too large if and only if one of those limits is below the longest closing frame that the other side queues, and then the side with that limit does in a run of native sessions |
| `Oversize.TooLargeCloses` | websock-tungstenite-mux/src/session.rs:123-131 | reading such a message closes the session, with code 2 in a browser and without a code in a native session, whose transport rejects it first |
| `Sessions.Reachable` | websock-tungstenite-mux/src/session.rs:987-1042 | every session object is in a state that some schedule reaches, so it has the invariant, the bounds and encodable frames |
| `Sessions.Session.Create` | websock-tungstenite-mux/src/session.rs:141-170 | a session is made if and only if the limits are valid, and starts empty |
| `Sessions.Session.OpenUni` | websock-tungstenite-mux/src/session.rs:172-184 | is the open action and returns the identifier of the counter reached if and only if the session is open and a send slot is free; a failed open has consumed its counter |
| `Sessions.Session.OpenBi` | websock-tungstenite-mux/src/session.rs:186-205 | the same for both directions, which are registered before the open and the initial credit are queued |
| `Sessions.Session.AcceptUni` | websock-tungstenite-mux/src/session.rs:207-215 | hands out the oldest stream that waits, also once the session has closed, and leaves the others in order |
| `Sessions.Session.AcceptBi` | websock-tungstenite-mux/src/session.rs:207-215 | the same for bidirectional streams |
| `Sessions.Session.RegisterSendFlow` | websock-tungstenite-mux/src/session.rs:1620-1635 | registers with zero credit exactly when a slot is free and the identifier is new |
| `Sessions.Session.TryReserve` | websock-tungstenite-mux/src/session.rs:268-290 | grants the smaller of what is wanted and what is left, and accounts for it |
| `Sessions.Session.Publish` | websock-tungstenite-mux/src/session.rs:1683-1702 | queues the reserved chunk if the session is open and the flow still registered, and otherwise returns its credit |
| `Sessions.Session.GiveBack` | websock-tungstenite-mux/src/session.rs:292-297 | returns the credit of an unpublished chunk without underflow |
| `Sessions.Session.RemoveSendFlow` | websock-tungstenite-mux/src/session.rs:1637-1644 | removes the flow and tells whether it was there |
| `Sessions.SendStream.BeginOperation` | websock-tungstenite-mux/src/session.rs:356-379 | admits an operation exactly when none is suspended and the API was not chosen otherwise |
| `Sessions.SendStream.Write` | websock-tungstenite-mux/src/session.rs:401-453 | refused if and only if another operation is suspended or the other API was chosen; otherwise what is queued followed by what is left is the data, every chunk takes all that frame and credit allow, it waits only for credit or a queue slot and fails exactly on a finished handle, a closed session or, with data to write, a flow that is gone; no other stream is touched |
| `Sessions.SendStream.PollWrite` | websock-tungstenite-mux/src/session.rs:409-450 | resuming a write queues the next bytes in order, in non-empty chunks within the limits, each but the last as large as a frame takes unless credit has run out, and waits only for credit or a queue slot |
| `Sessions.SendStream.PollAsyncWrite` | websock-tungstenite-mux/src/session.rs:526-599 | publishes as long a prefix of the buffer as frame and credit allow, or leaves the whole session as it was, credit included; closed if and only if finished, closed or retired |
| `Sessions.SendStream.BeginFinish` | websock-tungstenite-mux/src/session.rs:459-473 | finish up to its wait for a queue slot: refused while another operation is suspended, idempotent, and only the first call on a live stream waits, with no FIN queued and no credit held |
| `Sessions.SendStream.CompleteFinish` | websock-tungstenite-mux/src/session.rs:474-482 | after the wait exactly one FIN is queued and the flow removed, unless the flow went meanwhile, which changes nothing |
| `Sessions.SendStream.BeginReset` | websock-tungstenite-mux/src/session.rs:488-495 | reset up to its wait: refused for a busy handle or a code beyond a varint, otherwise the flow is retired at once |
| `Sessions.SendStream.CompleteReset` | websock-tungstenite-mux/src/session.rs:496-499 | after the wait the reset is queued with its code, unless the session has closed |
| `Sessions.SendStream.Abandon` | websock-tungstenite-mux/src/session.rs:1304-1325 | a write, finish or reset dropped while it waits closes the session: no flow, credit or half-published end is left |
| `Sessions.SendStream.Drop` | websock-tungstenite-mux/src/session.rs:685-705 | an unfinished stream is reset with code 0 or, if the queue is full, the session ends; a finished one adds nothing |
| `Handles.HandleStable` | websock-tungstenite-mux/src/session.rs:346-379 | whatever else the session does, a handle's reserved credit and FIN flag are untouched and its limit only rises, so a suspended write can be resumed |
| `Sessions.Session.Recv` | websock-tungstenite-mux/src/session.rs:824-841 | takes the next event, waits while the sender lives, and reports the end when it is gone |
| `Sessions.Session.OnBytesConsumed` | websock-tungstenite-mux/src/session.rs:758-779 | is the consume action: hands out bytes and raises the limit once a threshold's worth is due |
| `Sessions.Session.SubmitCredit` | websock-tungstenite-mux/src/session.rs:1254-1280 | coalesces a grant, pruning retired streams when full, or ends the session |
| `Sessions.Session.ReadChunk` | websock-tungstenite-mux/src/session.rs:843-880 | returns a chunk if and only if bytes or an empty event are at hand, exactly as many of the bytes as asked for, and appends it to what was delivered; waits if and only if nothing is left of a live stream, which changes nothing; end means finished and drained; it performs one pop and one consume at most |
| `Sessions.Session.PollRead` | websock-tungstenite-mux/src/session.rs:927-977 | skips empty events, returns a chunk if and only if data is ahead or none was asked for, exactly as many of its bytes as fit, and otherwise reads like `ReadChunk` |
| `Sessions.Session.BeginStop` | websock-tungstenite-mux/src/session.rs:882-892 | only the first call on a live stream of an open session gets to wait for a queue slot; afterwards the stream is stopped and has no credit pending |
| `Sessions.Session.CompleteStop` | websock-tungstenite-mux/src/session.rs:893-895 | after the wait the request is queued with its code, unless the session has closed |
| `Sessions.Session.DropRecv` | websock-tungstenite-mux/src/session.rs:905-924 | a live, unfinished, unstopped stream is stopped with code 0 or, if the queue is full, the session ends; in every other case nothing is sent and nothing else changes |
| `Sessions.Session.HandleFrame` | websock-tungstenite-mux/src/session.rs:1390-1534 | is the receive action, branch by branch, and reports failure exactly when the session is closed; a closing frame always closes it and empties its registries |
| `Sessions.Session.HandleMessage` | websock-tungstenite-mux/src/session.rs:1070-1094 | an oversized message is rejected with code 2; otherwise the actions performed are one receive for each decoded frame, up to the one that ends the session, or a rejection with code 1 where the bytes stop decoding |
| `Sessions.Session.RejectMessage` | websock-tungstenite-mux/src/session.rs:1070-1111 | is the reject action for an oversized, undecodable or text message: the peer is told if there is room and the session closes |
| `Sessions.Session.AcceptOpen` | websock-tungstenite-mux/src/session.rs:1392-1460 | a misplaced open ends the session; a good one moves the frontier, registers and announces credit |
| `Sessions.Session.AcceptData` | websock-tungstenite-mux/src/session.rs:1461-1508 | size, unknown stream, overflow, flow control and full queue are checked in that order before bytes are accounted and queued |
| `Sessions.Session.AcceptEnd` | websock-tungstenite-mux/src/session.rs:1509-1521 | a reset releases the receive state, a stop retires the flow and is answered with a reset of the same code; for a retired direction both are harmless, for any other they end the session |
| `Sessions.Session.Fail` | websock-tungstenite-mux/src/session.rs:1748-1759 | tells the peer if there is room, then closes everything and records the code |
| `Sessions.Session.TakeQueued` | websock-tungstenite-mux/src/session.rs:1164-1172 | moves the head of the queue to the wire: the log is unchanged |
| `Sessions.Session.NextCredit` | websock-tungstenite-mux/src/session.rs:1281-1298 | takes one pending credit, if any, straight to the wire |
| `Browsers.Agreement` | websock-wasm-mux/src/session.rs:1179-1361 | browser and native handlers give the same state and error code if and only if the browser's queue takes what the native session waits to queue; always on data, resets, credit and close |
| `Browsers.StarvedRun` | websock-wasm-mux/src/session.rs:1215-1218 | for every two valid limits: the three-step run in which the queue refuses the initial credit reaches the difference above, leaves the stream drained with no credit at its sender, and the limit stays zero in every continuation |
| `Browsers.HalfOpenRun` | websock-wasm-mux/src/session.rs:163-181 | for every two valid limits: a run in which a browser's open finds room for its first frame only and the peer finishes the stream ends the browser's session with code 2 |
| `Browsers.BrowserSession.OpenUniStream` | websock-wasm-mux/src/session.rs:153-161 | is the open action, also when the queue refuses the frame: the registration is taken back and the counter is spent; a handle is returned exactly on success |
| `Browsers.BrowserSession.OpenBiStream` | websock-wasm-mux/src/session.rs:163-181 | is the open action for every pair of answers of the queue: a refusal of either frame takes both registrations back, with the open on its way if only the credit was refused; handles are returned exactly if both frames were queued |
| `Browsers.BrowserSession.HandleFrom` | websock-wasm-mux/src/session.rs:1179-1361 | the browser's handler computes the receive step, for either answer of its queue, and reports failure exactly when the session is closed; a closing frame always closes it and empties its registries |
| `Browsers.BrowserSession.EndFrom` | websock-wasm-mux/src/session.rs:1335-1349 | resets and stop requests are handled as in the native session, with the answering reset offered once; a refusal ends the session |
| `Browsers.BrowserSession.DataFrom` | websock-wasm-mux/src/session.rs:1294-1334 | deciding removal and overflow under the borrow and reporting later gives the native result |
| `Browsers.BrowserSession.OpenFrom` | websock-wasm-mux/src/session.rs:1181-1293 | opens are checked as in the native session, with the initial credit offered once |

## Left out

- Sessions.Session.OpenUni: allocation of an identifier, registration of its flow and queueing of its open frame are one step, as they are in the browser; the native session waits for a queue slot before the last.
- Sessions.Session.OpenBi: the same, with the wait before the initial credit.
- Sessions.Session.HandleFrame: an inbound frame is handled in one step; the waits inside the native handler are not interleaved with other tasks.
- Sessions.Session.AcceptOpen: the wait to queue the initial credit, and its failure with code 2 during the session's own shutdown, a code that is never transmitted.
- Sessions.Session.AcceptEnd: the wait to queue the answering reset.
- Sessions.SendStream.CompleteReset: a reset whose wait outlives the session is dropped; the source queues it if the writer has not ended.
- Sessions.Session.CompleteStop: likewise, a request whose wait outlives the session is dropped.
- Frames.DecodeMessage: collects the frames without handling them; the loop that handles each before decoding the next is Sessions.Session.HandleMessage.
- TwoParty.NoProtocolErrors: is about frames; that messages are not undecodable is WireSystem.EndToEnd, and when they are oversized is Oversize.RejectIff. Code 2 for an initial credit that cannot be queued during shutdown is outside the model.
- WireSystem.OverWebSocket: both sides use the native writer, and the peer's close frame closes the session in one step; pings are not sent. For two sides of which one makes larger batches than the other takes as messages nothing is stated.
- Draining.Drains: a continuation exists; that a fair scheduler finds it is not stated. With opens in transit it may end a session; whether another continuation would not is not stated.
- `poll_shutdown`, which queues a FIN without the operation guard: the order of data and FIN is stated for the direct write and finish calls.
- The outbound queue has no capacity for senders that wait; for those that do not, `room` and `queued` decide.
- Handles of receive streams are records in the session's map, keyed by identifier, not separate objects.
- Graceful shutdown and session drop are one closing step; timers, the five-second deadlines and wakers are not modelled.
- The browser's send and receive handles, which repeat the native ones without tasks.
- The channel capacity of the browser's queues, which is one more than the length asked for, is a parameter: the model's queue lengths are effective capacities.
- Real UTF-8 validation: validity of a close reason is a parameter, assumed to hold of seven-bit text where messages are decoded.
- Counters are natural numbers; the 2^64 wrap of the identifier counters and of the receive counter beyond the modelled overflow check is out of reach of any run that fits the varint range. Lengths assume a 64-bit `usize`.
- Maps are not claimed to be empty after closing in the source, where a concurrent registration can still insert; in the model closing and registering are atomic.
- TLS, builders, HTTP upgrade, plain connections, the async varint reader and writer, demos and fuzz targets.
