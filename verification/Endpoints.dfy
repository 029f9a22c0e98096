/** Session limits and the consistency that `Limits::validate` enforces. */
module SessionLimits {
  import opened VarInts
  import opened Frames

  datatype Limits = Limits(
    maxWsMessageSize: nat,
    maxStreamDataPerFrame: nat,
    maxOpenStreams: nat,
    recvEventQueueLen: nat,
    outboundQueueLen: nat,
    maxBatchFrames: nat,
    maxBatchBytes: nat,
    initialStreamWindow: nat,
    windowUpdateThreshold: nat,
    acceptUniQueueLen: nat,
    acceptBiQueueLen: nat)

  const USIZE_MAX: nat := 0xFFFF_FFFF_FFFF_FFFF

  function SaturatingAdd(a: nat, b: nat): (s: nat) {
    if a + b > USIZE_MAX then USIZE_MAX else a + b
  }

  predicate Valid(l: Limits) {
    && l.maxWsMessageSize != 0 && l.maxStreamDataPerFrame != 0 && l.maxOpenStreams != 0
    && l.recvEventQueueLen != 0 && l.outboundQueueLen != 0
    && l.maxBatchFrames != 0 && l.maxBatchBytes != 0
    && l.initialStreamWindow != 0 && l.windowUpdateThreshold != 0
    && l.acceptUniQueueLen != 0 && l.acceptBiQueueLen != 0
    && l.maxStreamDataPerFrame <= l.maxWsMessageSize
    && l.maxBatchBytes <= l.maxWsMessageSize
    && l.maxBatchBytes >= SaturatingAdd(l.maxStreamDataPerFrame, 33)
    && l.windowUpdateThreshold <= l.initialStreamWindow
    && l.maxWsMessageSize <= MAX && l.initialStreamWindow <= MAX
  }

  /** A batch takes one frame of the largest size with 33 bytes to spare, and not a byte less is asked for. */
  lemma TightBatches(l: Limits)
    requires Valid(l) && l.maxStreamDataPerFrame + 33 <= l.maxWsMessageSize
    ensures Valid(l.(maxBatchBytes := l.maxStreamDataPerFrame + 33))
    ensures !Valid(l.(maxBatchBytes := l.maxStreamDataPerFrame + 32))
  {
  }

  /** Report the first limit that is zero or inconsistent with another. */
  method Validate(l: Limits) returns (error: Option<string>)
    ensures error.None? <==> Valid(l)
  {
    var nonZero := [
      ("max_ws_message_size", l.maxWsMessageSize), ("max_stream_data_per_frame", l.maxStreamDataPerFrame),
      ("max_open_streams", l.maxOpenStreams), ("recv_event_queue_len", l.recvEventQueueLen),
      ("outbound_queue_len", l.outboundQueueLen), ("max_batch_frames", l.maxBatchFrames),
      ("max_batch_bytes", l.maxBatchBytes), ("initial_stream_window", l.initialStreamWindow),
      ("stream_window_update_threshold", l.windowUpdateThreshold),
      ("accept_uni_queue_len", l.acceptUniQueueLen), ("accept_bi_queue_len", l.acceptBiQueueLen)];
    for i := 0 to |nonZero|
      invariant forall k :: 0 <= k < i ==> nonZero[k].1 != 0
    {
      if nonZero[i].1 == 0 { return Some(nonZero[i].0 + " must be greater than zero"); }
    }
    assert nonZero[0].1 != 0 && nonZero[1].1 != 0 && nonZero[2].1 != 0 && nonZero[3].1 != 0 && nonZero[4].1 != 0
           && nonZero[5].1 != 0 && nonZero[6].1 != 0 && nonZero[7].1 != 0 && nonZero[8].1 != 0 && nonZero[9].1 != 0
           && nonZero[10].1 != 0;
    if l.maxStreamDataPerFrame > l.maxWsMessageSize {
      return Some("max_stream_data_per_frame must not exceed max_ws_message_size");
    }
    if l.maxBatchBytes > l.maxWsMessageSize { return Some("max_batch_bytes must not exceed max_ws_message_size"); }
    if l.maxBatchBytes < SaturatingAdd(l.maxStreamDataPerFrame, 33) {
      return Some("max_batch_bytes must accommodate a maximum-size stream frame");
    }
    if l.windowUpdateThreshold > l.initialStreamWindow {
      return Some("stream_window_update_threshold must not exceed initial_stream_window");
    }
    if l.maxWsMessageSize > MAX || l.initialStreamWindow > MAX {
      return Some("byte and flow-control limits must fit in a mux varint");
    }
    return None;
  }
}

/** One endpoint of a session as a value, and the atomic steps it is made of. Every
    critical section, queue operation and inbound frame of the source is one `Action`;
    a schedule is a sequence of actions. */
module Endpoints {
  import opened VarInts
  import opened Frames
  import opened SessionLimits

  const MAX_WRITE_CHUNK: nat := 16 * 1024

  /** The longest reason that a session gives for closing, and the longest but for a lack of send slots. */
  const MAX_REASON: nat := 42
  const SHORT_REASON: nat := 35

  /** Send credit of one stream. `reserved` is the chunk a suspended write holds credit for. */
  datatype SendFlow = SendFlow(maxData: nat, sentData: nat, reserved: seq<Byte>, finQueued: bool)

  datatype RecvEvent = RecvEvent(data: seq<Byte>, fin: bool)

  /** What the session keeps for a receive direction. */
  datatype RecvState = RecvState(stopped: bool, received: nat, maxData: nat)

  /** The application's receive handle. `delivered` and `finSeen` record what reads returned. */
  datatype Reader = Reader(
    queue: seq<RecvEvent>, pending: seq<Byte>, consumed: nat, granted: nat,
    finished: bool, stopSent: bool, delivered: seq<Byte>, finSeen: bool)

  /** `outbound` holds frames waiting for the writer; `sent` all frames handed to the transport so far. */
  datatype Endpoint = Endpoint(
    isServer: bool, limits: Limits,
    streams: map<StreamId, RecvState>, readers: map<StreamId, Reader>,
    sendFlows: map<StreamId, SendFlow>, writers: set<StreamId>,
    pendingCredit: map<StreamId, nat>,
    nextUni: nat, nextBi: nat, nextPeerUni: nat, nextPeerBi: nat,
    acceptUni: seq<StreamId>, acceptBi: seq<StreamId>,
    outbound: seq<Frame>, sent: seq<Frame>,
    closed: bool, error: Option<nat>)

  /** Why the inbound task gives up on a WebSocket message before it has a frame. */
  datatype Problem = InvalidFrame | MessageTooLarge | TextMessage

  /** `queued` tells whether the outbound queue takes the open frame of an own stream, or the frame that handling an
      inbound one gives rise to: the initial credit of an accepted stream, or the reset that answers a stop.
      `credited` tells it of the initial credit that follows an own open. A native session waits until the queue does,
      a browser session tries once. `room` tells whether the queue takes a closing frame, for which neither waits. */
  datatype Action =
    | OpenUniStream(queued: bool) | OpenBiStream(queued: bool, credited: bool) | AcceptUni | AcceptBi
    | Reserve(id: StreamId, data: seq<Byte>) | Commit(id: StreamId) | Release(id: StreamId)
    | QueueFin(id: StreamId) | RemoveFlow(id: StreamId) | QueueReset(id: StreamId, code: nat) | DropWriter(id: StreamId)
    | PopEvent(id: StreamId) | Consume(id: StreamId, n: nat)
    | StopRead(id: StreamId) | QueueStop(id: StreamId, code: nat) | DropReader(id: StreamId)
    | SendQueued | SendCredit(id: StreamId)
    | Receive(frame: Frame, queued: bool, room: bool) | Reject(problem: Problem, room: bool)
    | CloseSession

  function Fresh(isServer: bool, limits: Limits): (e: Endpoint) {
    Endpoint(isServer, limits, map[], map[], map[], {}, map[], 0, 0, 0, 0, [], [], [], [], false, None)
  }

  /** Role and limits never change, what was sent stays sent, closing is for good, and an error closes. */
  predicate SameRole(e: Endpoint, r: Endpoint) {
    && r.isServer == e.isServer && r.limits == e.limits && e.sent <= r.sent
    && (e.closed ==> r.closed) && (r.error == e.error || r.closed)
  }

  /** Only the writer sends. */
  predicate SameWire(e: Endpoint, r: Endpoint) {
    && r.isServer == e.isServer && r.limits == e.limits && r.sent == e.sent
    && (e.closed ==> r.closed) && (r.error == e.error || r.closed)
  }

  /** Only a protocol error sets an error code. */
  predicate Steady(e: Endpoint, r: Endpoint) {
    SameWire(e, r) && r.error == e.error
  }

  function Min(a: nat, b: nat): (m: nat) { if a <= b then a else b }
  function Max(a: nat, b: nat): (m: nat) { if a >= b then a else b }

  /** The most that a write puts into one frame. */
  function MaxChunk(lim: Limits): (n: nat) {
    Min(MAX_WRITE_CHUNK, lim.maxStreamDataPerFrame)
  }

  // ---- Identifiers and frontiers ----

  predicate Local(e: Endpoint, id: StreamId) {
    ByServer(id) == e.isServer
  }

  function Frontier(e: Endpoint, local: bool, dir: Dir): (n: nat) {
    match (local, dir)
    case (true, Uni) => e.nextUni
    case (true, Bi) => e.nextBi
    case (false, Uni) => e.nextPeerUni
    case (false, Bi) => e.nextPeerBi
  }

  /** The identifier lies below the allocation frontier of its direction and initiator. */
  predicate Known(e: Endpoint, id: StreamId) {
    Counter(id) < Frontier(e, Local(e, id), DirOf(id))
  }

  predicate IsRetiredDirection(e: Endpoint, id: StreamId, receiving: bool) {
    !(DirOf(id).Uni? && Local(e, id) == receiving) && Known(e, id)
  }

  // ---- Closing ----

  /** Streams waiting to be accepted can still be accepted; no more will come. */
  function CloseAll(e: Endpoint): (r: Endpoint)
    ensures Steady(e, r)
  {
    e.(streams := map[], sendFlows := map[], pendingCredit := map[], closed := true)
  }

  function Ascii(s: string): (r: seq<Byte>) {
    seq(|s|, i requires 0 <= i < |s| => s[i] as int % 128)
  }

  /** Tell the peer if the queue has room, then close everything. */
  function ProtocolError(e: Endpoint, code: nat, reason: string, room: bool): (r: Endpoint)
    ensures SameWire(e, r)
  {
    var told := if room then e.(outbound := e.outbound + [ConnectionClose(code, Ascii(reason))]) else e;
    CloseAll(told).(error := Some(code))
  }

  // ---- Opening and accepting ----

  function Enqueue(e: Endpoint, f: Frame): (r: Endpoint)
    ensures Steady(e, r)
  {
    e.(outbound := e.outbound + [f])
  }

  function NewReader(e: Endpoint): (r: Reader) {
    Reader([], [], 0, e.limits.initialStreamWindow, false, false, [], false)
  }

  /** Insert receive state, hand out its reader and announce the initial window. */
  function RegisterRecv(e: Endpoint, id: StreamId): (r: Endpoint)
    ensures Steady(e, r)
  {
    e.(streams := e.streams[id := RecvState(false, 0, e.limits.initialStreamWindow)],
       readers := e.readers[id := NewReader(e)])
  }

  function RegisterSend(e: Endpoint, id: StreamId): (r: Endpoint)
    ensures Steady(e, r)
  {
    e.(sendFlows := e.sendFlows[id := SendFlow(0, 0, [], false)], writers := e.writers + {id})
  }

  predicate SendSlotFree(e: Endpoint, id: StreamId) {
    |e.sendFlows| < e.limits.maxOpenStreams && id !in e.sendFlows
  }

  function InitialCredit(e: Endpoint, id: StreamId): (f: Frame) {
    MaxStreamData(id, e.limits.initialStreamWindow)
  }

  /** A failed open has already consumed its counter. */
  function DoOpenUni(e: Endpoint, queued: bool): (r: Endpoint)
    ensures Steady(e, r)
  {
    if e.closed then e else
    var e1 := e.(nextUni := e.nextUni + 1);
    match NewId(e.nextUni, e.isServer, Uni)
    case None => e1
    case Some(id) => if SendSlotFree(e, id) && queued then Enqueue(RegisterSend(e1, id), OpenUni(id)) else e1
  }

  /** An open whose credit is refused gives its state and handles up again, with the open frame on its way. */
  function DoOpenBi(e: Endpoint, queued: bool, credited: bool): (r: Endpoint)
    ensures Steady(e, r)
  {
    if e.closed then e else
    var e1 := e.(nextBi := e.nextBi + 1);
    match NewId(e.nextBi, e.isServer, Bi)
    case None => e1
    case Some(id) =>
      if !SendSlotFree(e, id) || !queued then e1
      else if credited then Enqueue(Enqueue(RegisterRecv(RegisterSend(e1, id), id), OpenBi(id)), InitialCredit(e, id))
      else Enqueue(e1, OpenBi(id))
  }

  function DoAcceptUni(e: Endpoint): (r: Endpoint)
    ensures Steady(e, r)
  {
    if e.acceptUni == [] then e else e.(acceptUni := e.acceptUni[1..])
  }

  function DoAcceptBi(e: Endpoint): (r: Endpoint)
    ensures Steady(e, r)
  {
    if e.acceptBi == [] then e else e.(acceptBi := e.acceptBi[1..])
  }

  // ---- Sending ----

  /** Take credit for at most one chunk; nothing happens when no credit is left. */
  function DoReserve(e: Endpoint, id: StreamId, data: seq<Byte>): (r: Endpoint)
    ensures Steady(e, r)
  {
    if id !in e.sendFlows then e else
    var flow := e.sendFlows[id];
    if flow.finQueued || flow.reserved != [] || flow.maxData <= flow.sentData
       || |data| > MaxChunk(e.limits) then e
    else
      var grant := Min(flow.maxData - flow.sentData, |data|);
      e.(sendFlows := e.sendFlows[id := flow.(sentData := flow.sentData + grant, reserved := data[..grant])])
  }

  function DoCommit(e: Endpoint, id: StreamId): (r: Endpoint)
    ensures Steady(e, r)
  {
    if id !in e.sendFlows || e.sendFlows[id].reserved == [] then e else
    var flow := e.sendFlows[id];
    Enqueue(e.(sendFlows := e.sendFlows[id := flow.(reserved := [])]), Stream(id, flow.reserved, false))
  }

  function DoRelease(e: Endpoint, id: StreamId): (r: Endpoint)
    ensures Steady(e, r)
  {
    if id !in e.sendFlows || |e.sendFlows[id].reserved| > e.sendFlows[id].sentData then e else
    var flow := e.sendFlows[id];
    e.(sendFlows := e.sendFlows[id := flow.(sentData := flow.sentData - |flow.reserved|, reserved := [])])
  }

  function DoQueueFin(e: Endpoint, id: StreamId): (r: Endpoint)
    ensures Steady(e, r)
  {
    if id !in e.sendFlows || e.sendFlows[id].finQueued || e.sendFlows[id].reserved != [] then e else
    Enqueue(e.(sendFlows := e.sendFlows[id := e.sendFlows[id].(finQueued := true)]), Stream(id, [], true))
  }

  function DoRemoveFlow(e: Endpoint, id: StreamId): (r: Endpoint)
    ensures Steady(e, r)
  {
    e.(sendFlows := e.sendFlows - {id})
  }

  function DoQueueReset(e: Endpoint, id: StreamId, code: nat): (r: Endpoint)
    ensures Steady(e, r)
  {
    if e.closed || id in e.sendFlows || id !in e.writers || code > MAX then e
    else Enqueue(e, ResetStream(id, code))
  }

  function DoDropWriter(e: Endpoint, id: StreamId): (r: Endpoint)
    ensures Steady(e, r)
  {
    if id in e.sendFlows then e else e.(writers := e.writers - {id})
  }

  // ---- Reading ----

  /** Move the next event into `pending`; report end of stream once the sender side is gone. */
  function DoPopEvent(e: Endpoint, id: StreamId): (r: Endpoint)
    ensures Steady(e, r)
  {
    if id !in e.readers then e else
    var rd := e.readers[id];
    if rd.pending != [] || rd.finished then e
    else if rd.queue != [] then
      var ev := rd.queue[0];
      e.(readers := e.readers[id := rd.(queue := rd.queue[1..], pending := ev.data,
                                        finished := ev.fin, finSeen := rd.finSeen || ev.fin)])
    else if id in e.streams then e
    else e.(readers := e.readers[id := rd.(finished := true)])
  }

  /** The cumulative limit a reader aims at: what was consumed plus one window, capped to a varint. */
  function Target(window: nat, consumed: nat): (t: nat) {
    Min(SaturatingAdd(consumed, window), MAX)
  }

  /** When every slot is taken, credits of retired streams make room. */
  function Pruned(e: Endpoint): (pending: map<StreamId, nat>)
    ensures forall k :: k in e.pendingCredit && k in e.streams ==> k in pending && pending[k] == e.pendingCredit[k]
    ensures forall k :: k in pending ==> k in e.pendingCredit && pending[k] == e.pendingCredit[k]
  {
    if |e.pendingCredit| >= e.limits.maxOpenStreams
    then map k | k in e.pendingCredit && k in e.streams :: e.pendingCredit[k]
    else e.pendingCredit
  }

  /** Coalesce a grant into the pending-credit map; running out of slots ends the session. */
  function QueueCredit(e: Endpoint, id: StreamId, maximum: nat): (r: Endpoint)
    ensures Steady(e, r)
  {
    if id !in e.streams || e.streams[id].stopped then e else
    var pending := Pruned(e);
    if |pending| >= e.limits.maxOpenStreams && id !in pending then CloseAll(e)
    else e.(pendingCredit := pending[id := if id in pending then Max(pending[id], maximum) else maximum])
  }

  /** Hand n pending bytes to the application and grant more credit once a threshold's worth is due. */
  function DoConsume(e: Endpoint, id: StreamId, n: nat): (r: Endpoint)
    ensures Steady(e, r)
  {
    if id !in e.readers || n == 0 || n > |e.readers[id].pending| then e else
    var rd := e.readers[id];
    var rd1 := rd.(pending := rd.pending[n..], delivered := rd.delivered + rd.pending[..n],
                   consumed := SaturatingAdd(rd.consumed, n));
    var target := Target(e.limits.initialStreamWindow, rd1.consumed);
    if target <= rd1.granted || target - rd1.granted < e.limits.windowUpdateThreshold
       || rd1.finished || rd1.stopSent
    then e.(readers := e.readers[id := rd1])
    else
      var e1 := e.(readers := e.readers[id := rd1.(granted := target)],
                   streams := if id in e.streams then e.streams[id := e.streams[id].(maxData := target)]
                       else e.streams);
      QueueCredit(e1, id, target)
  }

  function StopRecv(e: Endpoint, id: StreamId): (r: Endpoint)
    ensures Steady(e, r)
  {
    if id !in e.streams then e
    else e.(streams := e.streams[id := e.streams[id].(stopped := true)], pendingCredit := e.pendingCredit - {id})
  }

  function DoStopRead(e: Endpoint, id: StreamId): (r: Endpoint)
    ensures Steady(e, r)
  {
    if id !in e.readers then e
    else StopRecv(e.(readers := e.readers[id := e.readers[id].(stopSent := true)]), id)
  }

  function DoQueueStop(e: Endpoint, id: StreamId, code: nat): (r: Endpoint)
    ensures Steady(e, r)
  {
    if e.closed || id !in e.readers || code > MAX then e else Enqueue(e, StopSending(id, code))
  }

  function DoDropReader(e: Endpoint, id: StreamId): (r: Endpoint)
    ensures Steady(e, r)
  {
    if id !in e.readers then e else StopRecv(e.(readers := e.readers - {id}), id)
  }

  // ---- The writer ----

  function DoSendQueued(e: Endpoint): (r: Endpoint)
    ensures SameRole(e, r) && r.error == e.error
  {
    if e.outbound == [] then e else e.(sent := e.sent + [e.outbound[0]], outbound := e.outbound[1..])
  }

  /** A pending grant goes straight to the transport, past the outbound queue. */
  function DoSendCredit(e: Endpoint, id: StreamId): (r: Endpoint)
    ensures SameRole(e, r) && r.error == e.error
  {
    if id !in e.pendingCredit then e
    else e.(sent := e.sent + [MaxStreamData(id, e.pendingCredit[id])], pendingCredit := e.pendingCredit - {id})
  }

  // ---- Inbound frames ----

  /** Why an open is out of place, if it is. */
  function OpenViolation(e: Endpoint, id: StreamId, dir: Dir): (r: Option<string>)
    ensures r.Some? ==> |r.value| <= SHORT_REASON
  {
    if DirOf(id) != dir then Some(if dir.Uni? then "OpenUni with non-uni StreamId" else "OpenBi with non-bi StreamId")
    else if Local(e, id) then Some(if dir.Uni? then "OpenUni with wrong initiator" else "OpenBi with wrong initiator")
    else if Known(e, id) then
      Some(if dir.Uni? then "OpenUni with non-monotonic StreamId" else "OpenBi with non-monotonic StreamId")
    else None
  }

  /** Move the peer's frontier past the stream. */
  function PassPeerFrontier(e: Endpoint, id: StreamId): (r: Endpoint)
    ensures Steady(e, r)
  {
    if DirOf(id).Uni? then e.(nextPeerUni := Counter(id) + 1) else e.(nextPeerBi := Counter(id) + 1)
  }

  /** Why a well-placed open cannot be handed to the application, if it cannot. */
  function HandOverViolation(e: Endpoint, id: StreamId): (r: Option<string>)
    ensures r.Some? ==> |r.value| <= MAX_REASON
  {
    if DirOf(id).Bi? && |e.sendFlows| >= e.limits.maxOpenStreams then Some("protocol error: too many open send streams")
    else if DirOf(id).Bi? && id in e.sendFlows then Some("protocol error: duplicate send stream")
    else if DirOf(id).Uni? && |e.acceptUni| >= e.limits.acceptUniQueueLen then Some("accept queue full")
    else if DirOf(id).Bi? && |e.acceptBi| >= e.limits.acceptBiQueueLen then Some("accept queue full")
    else None
  }

  function HandOver(e: Endpoint, id: StreamId): (r: Endpoint)
    ensures Steady(e, r)
  {
    if DirOf(id).Uni? then RegisterRecv(e, id).(acceptUni := e.acceptUni + [id])
    else RegisterSend(RegisterRecv(e, id), id).(acceptBi := e.acceptBi + [id])
  }

  /** Register a well-placed open: receive slot, initial credit, then the accept queue. When the
      hand-over fails, the state and handles just made are dropped with everything else. */
  function Admit(e: Endpoint, id: StreamId, queued: bool, room: bool): (r: Endpoint)
    ensures SameWire(e, r)
  {
    if |e.streams| >= e.limits.maxOpenStreams then ProtocolError(e, 3, "too many open streams", room)
    else if id in e.streams then ProtocolError(e, 1, "duplicate stream open", room)
    else
      var e1 := if queued then Enqueue(e, InitialCredit(e, id)) else e;
      match HandOverViolation(e, id)
      case Some(reason) => ProtocolError(e1, 3, reason, room)
      case None => HandOver(e1, id)
  }

  function ReceiveOpen(e: Endpoint, id: StreamId, dir: Dir, queued: bool, room: bool): (r: Endpoint)
    ensures SameWire(e, r)
  {
    match OpenViolation(e, id, dir)
    case Some(reason) => ProtocolError(e, 1, reason, room)
    case None => Admit(PassPeerFrontier(e, id), id, queued, room)
  }

  function RemoveRecv(e: Endpoint, id: StreamId): (r: Endpoint)
    ensures Steady(e, r)
  {
    e.(streams := e.streams - {id})
  }

  /** Why a stream frame ends the session, if it does. */
  function StreamViolation(e: Endpoint, id: StreamId, data: seq<Byte>): (r: Option<(nat, string)>)
    ensures r.Some? ==> r.value.0 in {2, 3} && |r.value.1| <= SHORT_REASON
  {
    if |data| > e.limits.maxStreamDataPerFrame then Some((2, "stream data too large"))
    else if id !in e.streams then Some((2, "Stream data on unknown stream"))
    else
      var received := e.streams[id].received + |data|;
      if received > U64_MAX then Some((2, "stream data overflow"))
      else if received > e.streams[id].maxData then Some((2, "stream flow-control limit exceeded"))
      else if !e.streams[id].stopped && id in e.readers && |e.readers[id].queue| >= e.limits.recvEventQueueLen
      then Some((3, "receive queue full"))
      else None
  }

  /** Count the bytes of a stream frame, queue them unless the stream was stopped, retire it on FIN. */
  function Accounted(e: Endpoint, id: StreamId, data: seq<Byte>, fin: bool): (r: Endpoint)
    requires id in e.streams
    ensures Steady(e, r)
  {
    var st := e.streams[id];
    e.(streams := if fin then e.streams - {id} else e.streams[id := st.(received := st.received + |data|)],
       readers := if st.stopped || id !in e.readers then e.readers
                  else e.readers[id := e.readers[id].(queue := e.readers[id].queue + [RecvEvent(data, fin)])])
  }

  function ReceiveStream(e: Endpoint, id: StreamId, data: seq<Byte>, fin: bool, room: bool): (r: Endpoint)
    ensures SameWire(e, r)
  {
    match StreamViolation(e, id, data)
    case Some((code, reason)) => ProtocolError(e, code, reason, room)
    case None => Accounted(e, id, data, fin)
  }

  /** Retire the flow and answer with a reset; a queue that refuses the answer ends the session. */
  function AnswerStop(e: Endpoint, id: StreamId, code: nat, queued: bool): (r: Endpoint)
    ensures Steady(e, r)
  {
    if queued then Enqueue(DoRemoveFlow(e, id), ResetStream(id, code)) else CloseAll(DoRemoveFlow(e, id))
  }

  function ProblemCode(p: Problem): (code: nat) {
    if p.MessageTooLarge? then 2 else 1
  }

  function ProblemReason(p: Problem): (reason: string)
    ensures |reason| <= SHORT_REASON
  {
    match p
    case InvalidFrame => "invalid frame"
    case MessageTooLarge => "ws message too large"
    case TextMessage => "text message not supported"
  }

  function HandleFrame(e: Endpoint, frame: Frame, queued: bool, room: bool): (r: Endpoint)
    ensures SameWire(e, r)
  {
    match frame
    case OpenUni(id) => ReceiveOpen(e, id, Uni, queued, room)
    case OpenBi(id) => ReceiveOpen(e, id, Bi, queued, room)
    case Stream(id, data, fin) => ReceiveStream(e, id, data, fin, room)
    case ResetStream(id, _) =>
      if id in e.streams then RemoveRecv(e, id)
      else if IsRetiredDirection(e, id, true) then e
      else ProtocolError(e, 1, "reset on unknown stream", room)
    case StopSending(id, code) =>
      if id in e.sendFlows then AnswerStop(e, id, code, queued)
      else if IsRetiredDirection(e, id, false) then e
      else ProtocolError(e, 1, "stop on unknown stream", room)
    case MaxStreamData(id, max) =>
      if id !in e.sendFlows then e
      else e.(sendFlows := e.sendFlows[id := e.sendFlows[id].(maxData := Max(e.sendFlows[id].maxData, max))])
    case ConnectionClose(_, _) => CloseAll(e)
  }

  /** Actions that the peer brings about. */
  predicate Inbound(a: Action) {
    a.Receive? || a.Reject?
  }

  function Step(e: Endpoint, a: Action): (r: Endpoint)
    ensures SameRole(e, r) && (!Inbound(a) ==> r.error == e.error)
  {
    match a
    case OpenUniStream(queued) => DoOpenUni(e, queued)
    case OpenBiStream(queued, credited) => DoOpenBi(e, queued, credited)
    case AcceptUni => DoAcceptUni(e)
    case AcceptBi => DoAcceptBi(e)
    case Reserve(id, data) => DoReserve(e, id, data)
    case Commit(id) => DoCommit(e, id)
    case Release(id) => DoRelease(e, id)
    case QueueFin(id) => DoQueueFin(e, id)
    case RemoveFlow(id) => DoRemoveFlow(e, id)
    case QueueReset(id, code) => DoQueueReset(e, id, code)
    case DropWriter(id) => DoDropWriter(e, id)
    case PopEvent(id) => DoPopEvent(e, id)
    case Consume(id, n) => DoConsume(e, id, n)
    case StopRead(id) => DoStopRead(e, id)
    case QueueStop(id, code) => DoQueueStop(e, id, code)
    case DropReader(id) => DoDropReader(e, id)
    case SendQueued => DoSendQueued(e)
    case SendCredit(id) => DoSendCredit(e, id)
    case Receive(frame, queued, room) => if e.closed then e else HandleFrame(e, frame, queued, room)
    case Reject(problem, room) => if e.closed then e
        else ProtocolError(e, ProblemCode(problem), ProblemReason(problem), room)
    case CloseSession => CloseAll(e)
  }

  /** A whole run: the state after a schedule of actions. */
  function Run(e: Endpoint, schedule: seq<Action>): (r: Endpoint)
    ensures SameRole(e, r)
    decreases |schedule|
  {
    if schedule == [] then e else Step(Run(e, schedule[..|schedule| - 1]), schedule[|schedule| - 1])
  }

  /** What an action does, as a call; the bodies of the calls stay out of the proofs that use it. */
  lemma StepForm(e: Endpoint, a: Action)
    ensures Step(e, a) ==
            match a {
              case OpenUniStream(queued) => DoOpenUni(e, queued)
              case OpenBiStream(queued, credited) => DoOpenBi(e, queued, credited)
              case AcceptUni => DoAcceptUni(e)
              case AcceptBi => DoAcceptBi(e)
              case Reserve(id, data) => DoReserve(e, id, data)
              case Commit(id) => DoCommit(e, id)
              case Release(id) => DoRelease(e, id)
              case QueueFin(id) => DoQueueFin(e, id)
              case RemoveFlow(id) => DoRemoveFlow(e, id)
              case QueueReset(id, code) => DoQueueReset(e, id, code)
              case DropWriter(id) => DoDropWriter(e, id)
              case PopEvent(id) => DoPopEvent(e, id)
              case Consume(id, n) => DoConsume(e, id, n)
              case StopRead(id) => DoStopRead(e, id)
              case QueueStop(id, code) => DoQueueStop(e, id, code)
              case DropReader(id) => DoDropReader(e, id)
              case SendQueued => DoSendQueued(e)
              case SendCredit(id) => DoSendCredit(e, id)
              case Receive(frame, queued, room) => if e.closed then e else HandleFrame(e, frame, queued, room)
              case Reject(problem, room) =>
                if e.closed then e else ProtocolError(e, ProblemCode(problem), ProblemReason(problem), room)
              case CloseSession => CloseAll(e)
            }
  {
    hide DoOpenUni, DoOpenBi, DoReserve, DoCommit, DoRelease, DoQueueFin, DoRemoveFlow, DoQueueReset, DoDropWriter;
    hide DoAcceptUni, DoAcceptBi, DoPopEvent, DoConsume, DoStopRead, DoQueueStop, DoDropReader, SameRole;
    hide DoSendQueued, DoSendCredit, HandleFrame, CloseAll, ProtocolError, ProblemReason;
  }
}
