/** The native session as an object. Every method is a run of endpoint actions, recorded in the ghost
    `history`, so that what is proved of every schedule holds of every session object. Calls that can
    wait return `Pending` or `Waiting` and are resumed by calling them again; in between anything else
    may happen. */
module Sessions {
  import opened VarInts
  import opened Frames
  import opened SessionLimits
  import opened Endpoints
  import opened EndpointInvariant
  import opened EndpointTheorems
  import opened Handles

  lemma RunSnoc(e: Endpoint, s: seq<Action>, a: Action)
    ensures Run(e, s + [a]) == Step(Run(e, s), a)
  {
    assert (s + [a])[..|s|] == s;
  }

  datatype Outcome = Done | Pending | Closed | Refused

  datatype ReadOutcome = Chunk(data: seq<Byte>) | EndOfStream | Waiting | Invalid

  /** The actions that handling decoded frames amounts to: up to the one that ends the session, or a rejection. */
  function Reading(e: Endpoint, d: Decoded, room: nat -> bool, k: nat): (actions: seq<Action>)
    decreases |d.frames|
  {
    if d.frames == [] then if d.failure.Some? then [Reject(InvalidFrame, room(k))] else []
    else
      var a := Receive(d.frames[0], true, room(k));
      if Step(e, a).closed then [a]
      else [a] + Reading(Step(e, a), d.(frames := d.frames[1..]), room, k + 1)
  }

  lemma InRangeFits(f: Frame, utf8: seq<Byte> -> bool)
    requires InRange(f, utf8)
    ensures Fits(Header(f))
  {
    var h := Header(f);
    assert h[1] <= MAX && (|h| > 2 ==> h[2] <= MAX) && (|h| > 3 ==> h[3] <= MAX);
  }

  lemma NextRead(e: Endpoint, cursor: seq<Byte>, utf8: seq<Byte> -> bool, room: nat -> bool, k: nat)
    requires cursor != []
    ensures match DecodeFrame(cursor, utf8)
            case Failed(_) => Reading(e, DecodeAll(cursor, utf8), room, k) == [Reject(InvalidFrame, room(k))]
            case Parsed(f, left) =>
              var a := Receive(f, true, room(k));
              && |left| < |cursor| && Fits(Header(f))
              && Reading(e, DecodeAll(cursor, utf8), room, k)
                 == if Step(e, a).closed then [a] else [a] + Reading(Step(e, a), DecodeAll(left, utf8), room, k + 1)
  {
    hide DecodeFrame, Step, Fits, Header, InRange;
    match DecodeFrame(cursor, utf8)
    case Failed(_) =>
    case Parsed(f, left) =>
      DecodedFrameInRange(cursor, utf8);
      InRangeFits(f, utf8);
      var d, more := DecodeAll(cursor, utf8), DecodeAll(left, utf8);
      assert d.frames[0] == f && d.(frames := d.frames[1..]) == more;
  }

  lemma NothingRead(e: Endpoint, utf8: seq<Byte> -> bool, room: nat -> bool, k: nat)
    ensures Reading(e, DecodeAll([], utf8), room, k) == []
  {
  }

  function MessageActions(e: Endpoint, data: seq<Byte>, utf8: seq<Byte> -> bool,
      room: nat -> bool): (actions: seq<Action>) {
    if |data| > e.limits.maxWsMessageSize then [Reject(MessageTooLarge, room(0))]
    else Reading(e, DecodeAll(data, utf8), room, 0)
  }

  class Session {
    const isServer: bool
    const limits: Limits
    var streams: map<StreamId, RecvState>
    var readers: map<StreamId, Reader>
    var sendFlows: map<StreamId, SendFlow>
    var writers: set<StreamId>
    var pendingCredit: map<StreamId, nat>
    var nextUni: nat
    var nextBi: nat
    var nextPeerUni: nat
    var nextPeerBi: nat
    var acceptQueueUni: seq<StreamId>
    var acceptQueueBi: seq<StreamId>
    var outbound: seq<Frame>
    var sent: seq<Frame>
    var closed: bool
    var error: Option<nat>
    ghost var history: seq<Action>

    function State(): (e: Endpoint)
      reads this
    {
      Endpoint(isServer, limits, streams, readers, sendFlows, writers, pendingCredit,
               nextUni, nextBi, nextPeerUni, nextPeerBi, acceptQueueUni, acceptQueueBi, outbound, sent, closed, error)
    }

    ghost predicate Valid()
      reads this
    {
      && SessionLimits.Valid(limits)
      && State() == Run(Fresh(isServer, limits), history)
      && (forall i :: 0 <= i < |history| ==> Decodable(history[i]))
    }

    constructor (isServer: bool, limits: Limits)
      requires SessionLimits.Valid(limits)
      ensures Valid() && history == [] && this.isServer == isServer && this.limits == limits
    {
      this.isServer, this.limits := isServer, limits;
      streams, readers, sendFlows, writers, pendingCredit := map[], map[], map[], {}, map[];
      nextUni, nextBi, nextPeerUni, nextPeerBi := 0, 0, 0, 0;
      acceptQueueUni, acceptQueueBi, outbound, sent := [], [], [], [];
      closed, error, history := false, None, [];
    }

    /** A session with inconsistent limits is refused. */
    static method Create(isServer: bool, limits: Limits) returns (r: Option<Session>)
      ensures r.Some? <==> SessionLimits.Valid(limits)
      ensures r.Some? ==> && fresh(r.value) && r.value.Valid() && r.value.history == []
                          && r.value.isServer == isServer && r.value.limits == limits
    {
      var invalid := Validate(limits);
      if invalid.Some? { return None; }
      var session := new Session(isServer, limits);
      return Some(session);
    }

    /** Note that the fields have just made one step. */
    ghost method Record(a: Action, before: Endpoint)
      requires before == Run(Fresh(isServer, limits), history) && State() == Step(before, a)
      requires SessionLimits.Valid(limits) && Decodable(a)
      requires forall i :: 0 <= i < |history| ==> Decodable(history[i])
      modifies `history
      ensures Valid() && history == old(history) + [a] && State() == old(State())
    {
      hide Run, Step, Decodable, SessionLimits.Valid;
      RunSnoc(Fresh(isServer, limits), history, a);
      history := history + [a];
    }

    // ---- Opening and accepting ----

    method RegisterSendFlow(id: StreamId) returns (ok: bool)
      modifies `sendFlows, `writers
      ensures ok == SendSlotFree(old(State()), id)
      ensures State() == if ok then RegisterSend(old(State()), id) else old(State())
    {
      ok := |sendFlows| < limits.maxOpenStreams && id !in sendFlows;
      if ok { sendFlows, writers := sendFlows[id := SendFlow(0, 0, [], false)], writers + {id}; }
    }

    method RegisterRecvStream(id: StreamId)
      modifies `streams, `readers
      ensures State() == RegisterRecv(old(State()), id)
    {
      var window := limits.initialStreamWindow;
      streams := streams[id := RecvState(false, 0, window)];
      readers := readers[id := Reader([], [], 0, window, false, false, [], false)];
    }

    method TryOpenUni() returns (r: Option<StreamId>)
      modifies `sendFlows, `writers, `nextUni, `outbound
      ensures State() == DoOpenUni(old(State()), true) && r == Opened(old(State()), Uni)
      ensures r.Some? ==> r.value in sendFlows && r.value in writers
    {
      hide NewId;
      if closed { return None; }
      r := NewId(nextUni, isServer, Uni);
      nextUni := nextUni + 1;
      if r.None? { return; }
      var ok := RegisterSendFlow(r.value);
      if !ok { return None; }
      outbound := outbound + [Frames.OpenUni(r.value)];
    }

    method OpenUni() returns (r: Option<StreamId>)
      requires Valid()
      modifies this
      ensures Valid() && history == old(history) + [OpenUniStream(true)] && r == Opened(old(State()), Uni)
      ensures r.Some? ==> r.value in sendFlows && r.value in writers
    {
      hide Run, DoOpenUni, SessionLimits.Valid, Opened;
      ghost var before := State();
      r := TryOpenUni();
      Record(OpenUniStream(true), before);
    }

    method TryOpenBi() returns (r: Option<StreamId>)
      modifies `sendFlows, `writers, `streams, `readers, `nextBi, `outbound
      ensures State() == DoOpenBi(old(State()), true, true) && r == Opened(old(State()), Bi)
      ensures r.Some? ==> r.value in sendFlows && r.value in writers && r.value in readers
    {
      hide NewId;
      if closed { return None; }
      r := NewId(nextBi, isServer, Bi);
      nextBi := nextBi + 1;
      if r.None? { return; }
      var ok := RegisterSendFlow(r.value);
      if !ok { return None; }
      RegisterRecvStream(r.value);
      outbound := outbound + [Frames.OpenBi(r.value)] + [MaxStreamData(r.value, limits.initialStreamWindow)];
    }

    method OpenBi() returns (r: Option<StreamId>)
      requires Valid()
      modifies this
      ensures Valid() && history == old(history) + [OpenBiStream(true, true)] && r == Opened(old(State()), Bi)
      ensures r.Some? ==> r.value in sendFlows && r.value in writers && r.value in readers
    {
      hide Run, DoOpenBi, SessionLimits.Valid, Opened;
      ghost var before := State();
      r := TryOpenBi();
      Record(OpenBiStream(true, true), before);
    }

    /** The next stream of the peer in the order of its opens, or none yet; streams that were there when the session
        closed are still handed out. */
    method AcceptUni() returns (r: Option<StreamId>)
      requires Valid()
      modifies `acceptQueueUni, `history
      ensures Valid() && history == old(history) + [Action.AcceptUni]
      ensures r == if old(acceptQueueUni) == [] then None else Some(old(acceptQueueUni)[0])
      ensures old(acceptQueueUni) == (if r.Some? then [r.value] else []) + acceptQueueUni
    {
      hide Run, Step, SessionLimits.Valid;
      ghost var before := State();
      r := None;
      if acceptQueueUni != [] {
        r := Some(acceptQueueUni[0]);
        acceptQueueUni := acceptQueueUni[1..];
      }
      StepForm(before, Action.AcceptUni);
      Record(Action.AcceptUni, before);
    }

    method AcceptBi() returns (r: Option<StreamId>)
      requires Valid()
      modifies `acceptQueueBi, `history
      ensures Valid() && history == old(history) + [Action.AcceptBi]
      ensures r == if old(acceptQueueBi) == [] then None else Some(old(acceptQueueBi)[0])
      ensures old(acceptQueueBi) == (if r.Some? then [r.value] else []) + acceptQueueBi
    {
      hide Run, Step, SessionLimits.Valid;
      ghost var before := State();
      r := None;
      if acceptQueueBi != [] {
        r := Some(acceptQueueBi[0]);
        acceptQueueBi := acceptQueueBi[1..];
      }
      StepForm(before, Action.AcceptBi);
      Record(Action.AcceptBi, before);
    }

    // ---- Sending ----

    /** Take credit for at most the given bytes. */
    method TryReserve(id: StreamId, data: seq<Byte>) returns (grant: nat)
      requires Valid() && data != [] && |data| <= MaxChunk(limits)
      requires id in sendFlows ==> !sendFlows[id].finQueued && sendFlows[id].reserved == []
      modifies `sendFlows, `history
      ensures Valid() && history == old(history) + [Reserve(id, data)] && State() == DoReserve(old(State()), id, data)
      ensures grant == (if id in old(sendFlows) && old(sendFlows[id].maxData) > old(sendFlows[id].sentData)
                        then Min(old(sendFlows[id].maxData) - old(sendFlows[id].sentData), |data|) else 0)
    {
      hide Run, SessionLimits.Valid;
      ghost var before := State();
      grant := 0;
      if id in sendFlows {
        var flow := sendFlows[id];
        if flow.maxData > flow.sentData {
          grant := Min(flow.maxData - flow.sentData, |data|);
          sendFlows := sendFlows[id := flow.(sentData := flow.sentData + grant, reserved := data[..grant])];
        }
      }
      Record(Reserve(id, data), before);
    }

    /** Queue the chunk that holds credit, or give the credit back. */
    method Publish(id: StreamId) returns (ok: bool)
      requires Valid() && (id in sendFlows ==> sendFlows[id].reserved != [])
      modifies `sendFlows, `outbound, `history
      ensures Valid() && ok == (!old(closed) && id in old(sendFlows))
      ensures history == old(history) + [if ok then Commit(id) else Release(id)]
      ensures State() == if ok then DoCommit(old(State()), id) else DoRelease(old(State()), id)
    {
      hide Run, SessionLimits.Valid;
      ghost var before := State();
      ok := !closed && id in sendFlows;
      if ok {
        outbound := outbound + [Stream(id, sendFlows[id].reserved, false)];
        sendFlows := sendFlows[id := sendFlows[id].(reserved := [])];
        Record(Commit(id), before);
      } else {
        GiveBack(id);
      }
    }

    /** Give the credit of an unpublished chunk back. */
    method GiveBack(id: StreamId)
      requires Valid()
      modifies `sendFlows, `history
      ensures Valid() && history == old(history) + [Release(id)] && State() == DoRelease(old(State()), id)
    {
      hide Run, SessionLimits.Valid, AllOk, Bounded, WireOk;
      ghost var before := State();
      if id in sendFlows {
        var flow := sendFlows[id];
        assert |flow.reserved| <= flow.sentData by {
          Reachable(this);
          FlowOf(State(), id);
        }
        sendFlows := sendFlows[id := flow.(sentData := flow.sentData - |flow.reserved|, reserved := [])];
      }
      Record(Release(id), before);
    }

    method SendFin(id: StreamId) returns (ok: bool)
      requires Valid() && (id in sendFlows ==> !sendFlows[id].finQueued && sendFlows[id].reserved == [])
      modifies `sendFlows, `outbound, `history
      ensures Valid() && ok == (id in old(sendFlows))
      ensures history == old(history) + [QueueFin(id)] && State() == DoQueueFin(old(State()), id)
    {
      hide Run, SessionLimits.Valid;
      ghost var before := State();
      ok := id in sendFlows;
      if ok {
        outbound := outbound + [Stream(id, [], true)];
        sendFlows := sendFlows[id := sendFlows[id].(finQueued := true)];
      }
      Record(QueueFin(id), before);
    }

    method RemoveSendFlow(id: StreamId) returns (removed: bool)
      requires Valid()
      modifies `sendFlows, `history
      ensures Valid() && removed == (id in old(sendFlows))
      ensures history == old(history) + [RemoveFlow(id)] && State() == DoRemoveFlow(old(State()), id)
    {
      hide Run, SessionLimits.Valid;
      ghost var before := State();
      removed := id in sendFlows;
      sendFlows := sendFlows - {id};
      Record(RemoveFlow(id), before);
    }

    method SendReset(id: StreamId, code: nat) returns (ok: bool)
      requires Valid() && id !in sendFlows && id in writers && code <= MAX
      modifies `outbound, `history
      ensures Valid() && ok == !closed
      ensures history == old(history) + [QueueReset(id, code)] && State() == DoQueueReset(old(State()), id, code)
    {
      hide Run, SessionLimits.Valid;
      ghost var before := State();
      ok := !closed;
      if ok { outbound := outbound + [ResetStream(id, code)]; }
      Record(QueueReset(id, code), before);
    }

    method ForgetWriter(id: StreamId)
      requires Valid() && id !in sendFlows
      modifies `writers, `history
      ensures Valid() && history == old(history) + [DropWriter(id)] && State() == DoDropWriter(old(State()), id)
    {
      hide Run, SessionLimits.Valid;
      ghost var before := State();
      writers := writers - {id};
      Record(DropWriter(id), before);
    }

    // ---- Closing ----

    method CloseFields()
      modifies `streams, `sendFlows, `pendingCredit, `closed
      ensures State() == CloseAll(old(State()))
    {
      closed := true;
      pendingCredit := map[];
      streams := map[];
      sendFlows := map[];
    }

    method RequestShutdown()
      requires Valid()
      modifies this
      ensures Valid() && history == old(history) + [CloseSession] && State() == CloseAll(old(State()))
    {
      hide Run, SessionLimits.Valid;
      ghost var before := State();
      CloseFields();
      Record(CloseSession, before);
    }

    method Fail(code: nat, reason: string, room: bool)
      modifies `streams, `sendFlows, `pendingCredit, `closed, `outbound, `error
      ensures State() == ProtocolError(old(State()), code, reason, room)
    {
      hide Ascii;
      if room { outbound := outbound + [ConnectionClose(code, Ascii(reason))]; }
      CloseFields();
      error := Some(code);
    }

    // ---- Reading ----

    /** The next event, or the end once the sender is gone. */
    method Recv(id: StreamId) returns (waiting: bool)
      requires Valid() && id in readers && readers[id].pending == [] && !readers[id].finished
      modifies `readers, `history
      ensures Valid() && history == old(history) + [PopEvent(id)] && State() == DoPopEvent(old(State()), id)
      ensures waiting == (old(readers[id].queue) == [] && id in streams)
    {
      hide Run, Step, SessionLimits.Valid;
      ghost var before := State();
      var rd := readers[id];
      waiting := false;
      if rd.queue != [] {
        var ev := rd.queue[0];
        readers := readers[id := rd.(queue := rd.queue[1..], pending := ev.data,
                                     finished := ev.fin, finSeen := rd.finSeen || ev.fin)];
      } else if id in streams {
        waiting := true;
      } else {
        readers := readers[id := rd.(finished := true)];
      }
      StepForm(before, PopEvent(id));
      Record(PopEvent(id), before);
    }

    /** Coalesce a grant for the writer; a stream that is gone or stopped needs none. */
    method SubmitCredit(id: StreamId, maximum: nat)
      modifies `pendingCredit, `streams, `sendFlows, `closed
      ensures State() == QueueCredit(old(State()), id, maximum)
    {
      if id !in streams || streams[id].stopped { return; }
      var pending := pendingCredit;
      if |pending| >= limits.maxOpenStreams {
        pending := map k | k in pendingCredit && k in streams :: pendingCredit[k];
      }
      assert pending == Pruned(State());
      hide Pruned;
      if |pending| >= limits.maxOpenStreams && id !in pending {
        CloseFields();
        return;
      }
      pendingCredit := pending[id := if id in pending then Max(pending[id], maximum) else maximum];
    }

    /** Hand out n pending bytes and grant more credit once a threshold's worth is due. */
    method TakeBytes(id: StreamId, n: nat) returns (data: seq<Byte>)
      requires id in readers && 0 < n <= |readers[id].pending|
      modifies `readers, `pendingCredit, `streams, `sendFlows, `closed
      ensures State() == DoConsume(old(State()), id, n) && data == old(readers[id].pending[..n])
    {
      hide QueueCredit, Min, SaturatingAdd;
      var rd := readers[id];
      data := rd.pending[..n];
      rd := rd.(pending := rd.pending[n..], delivered := rd.delivered + data,
                consumed := SaturatingAdd(rd.consumed, n));
      var target := Min(SaturatingAdd(rd.consumed, limits.initialStreamWindow), MAX);
      if target <= rd.granted || target - rd.granted < limits.windowUpdateThreshold || rd.finished || rd.stopSent {
        readers := readers[id := rd];
        return;
      }
      readers := readers[id := rd.(granted := target)];
      if id in streams { streams := streams[id := streams[id].(maxData := target)]; }
      SubmitCredit(id, target);
    }

    method OnBytesConsumed(id: StreamId, n: nat) returns (data: seq<Byte>)
      requires Valid() && id in readers && n <= |readers[id].pending|
      modifies this
      ensures Valid() && history == old(history) + [Consume(id, n)] && State() == DoConsume(old(State()), id, n)
      ensures data == old(readers[id].pending[..n])
    {
      hide Run, SessionLimits.Valid, DoConsume;
      ghost var before := State();
      data := [];
      if n > 0 { data := TakeBytes(id, n); } else { NothingConsumed(before, id); }
      Record(Consume(id, n), before);
    }

    /** Read at most `max` bytes as one chunk, as many as are at hand: what a call hands out is appended to what the
        reader was given. An empty chunk comes from an empty event that is not the end, and from nothing else. */
    method ReadChunk(id: StreamId, max: nat) returns (r: ReadOutcome)
      requires Valid() && id in readers
      modifies this
      ensures Valid() && old(history) <= history && id in readers
      ensures max == 0 <==> r.Invalid?
      ensures r.Chunk? <==> max > 0 && (AtHand(old(readers[id])) != [] || EmptyNext(old(readers[id])))
      ensures r.Chunk? ==> && r.data == AtHand(old(readers[id]))[..Min(max, |AtHand(old(readers[id]))|)]
                           && readers[id].delivered == old(readers[id].delivered) + r.data
      ensures !r.Chunk? ==> readers[id].delivered == old(readers[id].delivered)
      ensures r.EndOfStream? ==> readers[id].finished && readers[id].pending == []
      ensures r.Waiting? <==> max > 0 && Exhausted(old(readers[id])) && id in old(streams)
      ensures r.Waiting? ==> State() == old(State())
      ensures history == old(history)
                         + (if max > 0 && old(readers[id].pending == [] && !readers[id].finished)
                            then [PopEvent(id)] else [])
                         + (if r.Chunk? then [Consume(id, |r.data|)] else [])
    {
      hide Run, SessionLimits.Valid, DoConsume;
      if max == 0 { return Invalid; }
      if readers[id].pending == [] {
        if readers[id].finished { return EndOfStream; }
        var waiting := Recv(id);
        if waiting { return Waiting; }
        if readers[id].pending == [] && readers[id].finished { return EndOfStream; }
      }
      Consumes(State(), id, Min(|readers[id].pending|, max));
      var data := OnBytesConsumed(id, Min(|readers[id].pending|, max));
      return Chunk(data);
    }

    /** The polled read: events without data are skipped. */
    method PollRead(id: StreamId, capacity: nat) returns (r: ReadOutcome)
      requires Valid() && id in readers
      modifies this
      ensures Valid() && old(history) <= history && id in readers && !r.Invalid?
      ensures r.Chunk? <==> capacity == 0 || FirstData(old(readers[id])) != []
      ensures r.Chunk? ==> && r.data == FirstData(old(readers[id]))[..Min(capacity, |FirstData(old(readers[id]))|)]
                           && readers[id].delivered == old(readers[id].delivered) + r.data
      ensures !r.Chunk? ==> readers[id].delivered == old(readers[id].delivered)
      ensures r.EndOfStream? ==> readers[id].finished && readers[id].pending == []
      ensures r.Waiting? ==> && readers[id].queue == [] && readers[id].pending == [] && id in streams
                             && outbound == old(outbound)
      ensures forall i :: |old(history)| <= i < |history| ==>
                || history[i] == PopEvent(id)
                || (i == |history| - 1 && r.Chunk? && history[i] == Consume(id, |r.data|))
    {
      hide Run, SessionLimits.Valid;
      if capacity == 0 { return Chunk([]); }
      while readers[id].pending == []
        invariant Valid() && old(history) <= history && id in readers && outbound == old(outbound)
        invariant readers[id].delivered == old(readers[id].delivered)
        invariant FirstData(readers[id]) == FirstData(old(readers[id]))
        invariant forall i :: |old(history)| <= i < |history| ==> history[i] == PopEvent(id)
        decreases |readers[id].queue|, !readers[id].finished
      {
        if readers[id].finished { return EndOfStream; }
        var waiting := Recv(id);
        if waiting { return Waiting; }
      }
      Consumes(State(), id, Min(|readers[id].pending|, capacity));
      hide DoConsume;
      var data := OnBytesConsumed(id, Min(|readers[id].pending|, capacity));
      return Chunk(data);
    }

    method StopFields(id: StreamId) returns (live: bool)
      modifies `streams, `pendingCredit
      ensures State() == StopRecv(old(State()), id) && live == (id in old(streams))
    {
      live := id in streams;
      if live {
        streams := streams[id := streams[id].(stopped := true)];
        pendingCredit := pendingCredit - {id};
      }
    }

    method StopRecvStream(id: StreamId) returns (live: bool)
      requires Valid() && id in readers
      modifies `readers, `streams, `pendingCredit, `history
      ensures Valid() && history == old(history) + [StopRead(id)] && State() == DoStopRead(old(State()), id)
      ensures live == (id in old(streams))
    {
      hide Run, Step, SessionLimits.Valid, StopRecv;
      ghost var before := State();
      readers := readers[id := readers[id].(stopSent := true)];
      live := StopFields(id);
      StepForm(before, StopRead(id));
      Record(StopRead(id), before);
    }

    method SendStop(id: StreamId, code: nat) returns (ok: bool)
      requires Valid() && id in readers && code <= MAX
      modifies `outbound, `history
      ensures Valid() && ok == !closed
      ensures history == old(history) + [QueueStop(id, code)] && State() == DoQueueStop(old(State()), id, code)
    {
      hide Run, SessionLimits.Valid;
      ghost var before := State();
      ok := !closed;
      if ok { outbound := outbound + [StopSending(id, code)]; }
      Record(QueueStop(id, code), before);
    }

    /** Ask the peer to stop, up to the wait for a queue slot. Only the first call on a live stream gets that far. */
    method BeginStop(id: StreamId, code: nat) returns (o: Outcome)
      requires Valid() && id in readers
      modifies `readers, `streams, `pendingCredit, `history
      ensures Valid() && id in readers
      ensures o.Refused? <==> code > MAX
      ensures history == old(history) + (if o.Refused? || old(readers[id].stopSent) then [] else [StopRead(id)])
      ensures !o.Refused? ==> readers[id].stopSent && (id in streams ==> streams[id].stopped && id !in pendingCredit)
      ensures o.Pending? <==> code <= MAX && !old(readers[id].stopSent) && id in old(streams) && !closed
      ensures o.Closed? <==> code <= MAX && !old(readers[id].stopSent) && id in old(streams) && closed
    {
      hide Run, SessionLimits.Valid, AllOk, Bounded, WireOk;
      if code > MAX { return Refused; }
      if readers[id].stopSent {
        assert id in streams ==> streams[id].stopped && id !in pendingCredit by {
          Reachable(this);
          StoppedOf(State(), id);
        }
        return Done;
      }
      var live := StopRecvStream(id);
      if !live { return Done; }
      return if closed then Closed else Pending;
    }

    /** A slot was free: the request is queued, unless the session has closed meanwhile. */
    method CompleteStop(id: StreamId, code: nat) returns (o: Outcome)
      requires Valid() && id in readers && code <= MAX
      modifies `outbound, `history
      ensures Valid() && history == old(history) + [QueueStop(id, code)]
      ensures o == if closed then Closed else Done
      ensures outbound == old(outbound) + (if closed then [] else [StopSending(id, code)])
    {
      hide Run, SessionLimits.Valid;
      var ok := SendStop(id, code);
      return if ok then Done else Closed;
    }

    method ForgetReader(id: StreamId)
      requires Valid() && id in readers
      modifies `readers, `streams, `pendingCredit, `history
      ensures Valid() && history == old(history) + [DropReader(id)] && State() == DoDropReader(old(State()), id)
    {
      hide Run, Step, SessionLimits.Valid, StopRecv;
      ghost var before := State();
      readers := readers - {id};
      var _ := StopFields(id);
      StepForm(before, DropReader(id));
      Record(DropReader(id), before);
    }

    /** Drop a receive handle: a live, unfinished stream that was not stopped is stopped now, or the session ends. */
    method DropRecv(id: StreamId, room: bool)
      requires Valid() && id in readers
      modifies this
      ensures Valid() && readers == old(readers) - {id} && writers == old(writers)
      ensures id in streams ==> streams[id].stopped && id !in pendingCredit
      ensures id in old(streams) && !old(readers[id].finished) && !old(readers[id].stopSent) ==>
                if room && !old(closed) then !closed && outbound == old(outbound) + [StopSending(id, 0)] else closed
      ensures id !in old(streams) || old(readers[id].finished) || old(readers[id].stopSent) ==>
                closed == old(closed) && outbound == old(outbound)
      ensures !closed ==> sendFlows == old(sendFlows) && streams.Keys == old(streams.Keys)
    {
      hide Run, SessionLimits.Valid;
      var rd := readers[id];
      var live := StopRecvStream(id);
      if live && !rd.finished && !rd.stopSent {
        if room && !closed {
          var _ := SendStop(id, 0);
        } else {
          RequestShutdown();
        }
      }
      ForgetReader(id);
    }

    // ---- Inbound frames ----

    /** Hand a registered stream to the application, as far as the limits allow. */
    method Deliver(id: StreamId) returns (refusal: Option<string>)
      modifies `streams, `readers, `sendFlows, `writers, `acceptQueueUni, `acceptQueueBi
      ensures refusal == HandOverViolation(old(State()), id)
      ensures State() == if refusal.None? then HandOver(old(State()), id) else old(State())
    {
      hide DirOf;
      if DirOf(id).Uni? {
        if |acceptQueueUni| >= limits.acceptUniQueueLen { return Some("accept queue full"); }
        RegisterRecvStream(id);
        acceptQueueUni := acceptQueueUni + [id];
      } else {
        if |sendFlows| >= limits.maxOpenStreams { return Some("protocol error: too many open send streams"); }
        if id in sendFlows { return Some("protocol error: duplicate send stream"); }
        if |acceptQueueBi| >= limits.acceptBiQueueLen { return Some("accept queue full"); }
        RegisterRecvStream(id);
        var _ := RegisterSendFlow(id);
        acceptQueueBi := acceptQueueBi + [id];
      }
      return None;
    }

    method AdmitStream(id: StreamId, room: bool)
      modifies this
      ensures State() == Admit(old(State()), id, true, room) && history == old(history)
    {
      hide ProtocolError, HandOver, HandOverViolation;
      if |streams| >= limits.maxOpenStreams {
        Fail(3, "too many open streams", room);
      } else if id in streams {
        Fail(1, "duplicate stream open", room);
      } else {
        ViolationIgnoresQueue(State(), id);
        outbound := outbound + [MaxStreamData(id, limits.initialStreamWindow)];
        var refusal := Deliver(id);
        if refusal.Some? { Fail(3, refusal.value, room); }
      }
    }

    method AcceptOpen(id: StreamId, dir: Dir, room: bool)
      modifies this
      ensures State() == ReceiveOpen(old(State()), id, dir, true, room) && history == old(history)
    {
      hide ProtocolError, Admit, DirOf, Counter, ByServer;
      if DirOf(id) != dir {
        Fail(1, if dir.Uni? then "OpenUni with non-uni StreamId" else "OpenBi with non-bi StreamId", room);
      } else if ByServer(id) == isServer {
        Fail(1, if dir.Uni? then "OpenUni with wrong initiator" else "OpenBi with wrong initiator", room);
      } else if Counter(id) < (if dir.Uni? then nextPeerUni else nextPeerBi) {
        Fail(1, if dir.Uni? then "OpenUni with non-monotonic StreamId" else "OpenBi with non-monotonic StreamId", room);
      } else {
        if dir.Uni? { nextPeerUni := Counter(id) + 1; } else { nextPeerBi := Counter(id) + 1; }
        AdmitStream(id, room);
      }
    }

    method AcceptData(id: StreamId, data: seq<Byte>, fin: bool, room: bool)
      modifies this
      ensures State() == ReceiveStream(old(State()), id, data, fin, room) && history == old(history)
    {
      hide ProtocolError;
      if |data| > limits.maxStreamDataPerFrame { Fail(2, "stream data too large", room); return; }
      if id !in streams { Fail(2, "Stream data on unknown stream", room); return; }
      var state := streams[id];
      var received := state.received + |data|;
      if received > U64_MAX { Fail(2, "stream data overflow", room); return; }
      if received > state.maxData { Fail(2, "stream flow-control limit exceeded", room); return; }
      if !state.stopped && id in readers {
        var rd := readers[id];
        if |rd.queue| >= limits.recvEventQueueLen { Fail(3, "receive queue full", room); return; }
        readers := readers[id := rd.(queue := rd.queue + [RecvEvent(data, fin)])];
      }
      streams := if fin then streams - {id} else streams[id := state.(received := received)];
    }

    /** A reset or a stop request: for a retired direction it is harmless, for an unknown one it ends the session. */
    method AcceptEnd(f: Frame, room: bool)
      requires f.ResetStream? || f.StopSending?
      modifies this
      ensures State() == Endpoints.HandleFrame(old(State()), f, true, room) && history == old(history)
      ensures f.StopSending? && f.id in old(sendFlows) ==>
                outbound == old(outbound) + [ResetStream(f.id, f.code)] && f.id !in sendFlows && closed == old(closed)
      ensures f.ResetStream? && f.id in old(streams) ==>
                outbound == old(outbound) && streams == old(streams) - {f.id} && closed == old(closed)
    {
      hide ProtocolError, IsRetiredDirection;
      if f.ResetStream? {
        if f.id in streams { streams := streams - {f.id}; }
        else if !IsRetiredDirection(State(), f.id, true) { Fail(1, "reset on unknown stream", room); }
      } else if f.id in sendFlows {
        sendFlows := sendFlows - {f.id};
        outbound := outbound + [ResetStream(f.id, f.code)];
      } else if !IsRetiredDirection(State(), f.id, false) {
        Fail(1, "stop on unknown stream", room);
      }
    }

    method Dispatch(f: Frame, room: bool)
      modifies this
      ensures State() == Endpoints.HandleFrame(old(State()), f, true, room) && history == old(history)
      ensures f.ConnectionClose? ==>
                && closed && streams == map[] && sendFlows == map[] && pendingCredit == map[]
                && error == old(error) && outbound == old(outbound)
    {
      hide ProtocolError, ReceiveOpen, ReceiveStream, IsRetiredDirection;
      match f {
        case OpenUni(id) => AcceptOpen(id, Uni, room);
        case OpenBi(id) => AcceptOpen(id, Bi, room);
        case Stream(id, data, fin) => AcceptData(id, data, fin, room);
        case ResetStream(id, code) => AcceptEnd(f, room);
        case StopSending(id, code) => AcceptEnd(f, room);
        case MaxStreamData(id, max) =>
          if id in sendFlows {
            sendFlows := sendFlows[id := sendFlows[id].(maxData := Max(sendFlows[id].maxData, max))];
          }
        case ConnectionClose(_, _) => CloseFields();
      }
    }

    method HandleFrame(f: Frame, room: bool) returns (ok: bool)
      requires Valid() && Fits(Header(f))
      modifies this
      ensures Valid() && history == old(history) + [Receive(f, true, room)]
      ensures State() == Step(old(State()), Receive(f, true, room)) && ok == !closed
      ensures f.ConnectionClose? && !old(closed) ==>
                && !ok && closed && streams == map[] && sendFlows == map[] && pendingCredit == map[]
                && error == old(error) && outbound == old(outbound)
    {
      hide Run, SessionLimits.Valid, Endpoints.HandleFrame, Fits, Header;
      ghost var before := State();
      if !closed { Dispatch(f, room); }
      Record(Receive(f, true, room), before);
      ok := !closed;
    }

    method RejectMessage(problem: Problem, room: bool)
      requires Valid()
      modifies this
      ensures Valid() && history == old(history) + [Reject(problem, room)] && closed
    {
      hide Run, SessionLimits.Valid;
      ghost var before := State();
      if !closed { Fail(ProblemCode(problem), ProblemReason(problem), room); }
      Record(Reject(problem, room), before);
    }

    /** One binary message: refused when oversized, otherwise decoded and handled frame by frame until the bytes run
        out, one does not decode, or the handler has ended the session. What follows that is not even decoded. */
    method HandleMessage(data: seq<Byte>, utf8: seq<Byte> -> bool, room: nat -> bool) returns (ok: bool)
      requires Valid()
      modifies this
      ensures Valid() && ok == !closed
      ensures history == old(history) + MessageActions(old(State()), data, utf8, room)
    {
      hide Run, SessionLimits.Valid, DecodeFrame, DecodeAll, Reading, Step, Decodable, Fits, Header;
      if |data| > limits.maxWsMessageSize {
        RejectMessage(MessageTooLarge, room(0));
        return false;
      }
      var cursor, k := data, 0;
      while cursor != []
        invariant Valid() && history + Reading(State(), DecodeAll(cursor, utf8), room, k)
                             == old(history) + Reading(old(State()), DecodeAll(data, utf8), room, 0)
        decreases |cursor|
      {
        NextRead(State(), cursor, utf8, room, k);
        match DecodeFrame(cursor, utf8)
        case Failed(_) =>
          RejectMessage(InvalidFrame, room(k));
          return false;
        case Parsed(f, left) =>
          ghost var before, further := history,
              Reading(Step(State(), Receive(f, true, room(k))), DecodeAll(left, utf8), room, k + 1);
          ok := HandleFrame(f, room(k));
          if !ok { return; }
          assert before + ([Receive(f, true, room(k))] + further) == history + further;
          cursor, k := left, k + 1;
      }
      NothingRead(State(), utf8, room, k);
      ok := !closed;
    }

    // ---- The writer's side ----

    method TakeQueued() returns (f: Option<Frame>)
      requires Valid()
      modifies `outbound, `sent, `history
      ensures Valid() && history == old(history) + [SendQueued]
      ensures f == if old(outbound) == [] then None else Some(old(outbound[0]))
      ensures sent + outbound == old(sent + outbound)
    {
      hide Run, Step, SessionLimits.Valid;
      ghost var before := State();
      f := None;
      if outbound != [] {
        f := Some(outbound[0]);
        assert sent + outbound == sent + [outbound[0]] + outbound[1..];
        sent, outbound := sent + [outbound[0]], outbound[1..];
      }
      StepForm(before, SendQueued);
      Record(SendQueued, before);
    }

    /** Take any pending credit. */
    method NextCredit() returns (f: Option<Frame>)
      requires Valid()
      modifies `pendingCredit, `sent, `history
      ensures Valid() && old(history) <= history
      ensures f.None? <==> old(pendingCredit) == map[]
      ensures f.Some? ==> && f.value.MaxStreamData? && f.value.id in old(pendingCredit)
                          && f.value.max == old(pendingCredit)[f.value.id]
                          && pendingCredit == old(pendingCredit) - {f.value.id} && sent == old(sent) + [f.value]
      ensures f.None? ==> State() == old(State())
    {
      hide Run, Step, SessionLimits.Valid;
      if pendingCredit == map[] { return None; }
      ghost var before := State();
      var id :| id in pendingCredit;
      f := Some(MaxStreamData(id, pendingCredit[id]));
      sent := sent + [MaxStreamData(id, pendingCredit[id])];
      pendingCredit := pendingCredit - {id};
      StepForm(before, SendCredit(id));
      Record(SendCredit(id), before);
    }
  }

  /** The identifier that an open of this direction gets. */
  function Opened(e: Endpoint, dir: Dir): (r: Option<StreamId>) {
    var got := NewId(Frontier(e, true, dir), e.isServer, dir);
    if !e.closed && got.Some? && SendSlotFree(e, got.value) then got else None
  }

  /** The bytes that a read finds first: those left over, or those of the next event. */
  function AtHand(rd: Reader): (bytes: seq<Byte>) {
    if rd.pending != [] then rd.pending else if rd.finished || rd.queue == [] then [] else rd.queue[0].data
  }

  /** The next event is empty and not the end. */
  predicate EmptyNext(rd: Reader) {
    rd.pending == [] && !rd.finished && rd.queue != [] && rd.queue[0].data == [] && !rd.queue[0].fin
  }

  /** Nothing is left to read, and nothing has said that this is the end. */
  predicate Exhausted(rd: Reader) {
    rd.pending == [] && !rd.finished && rd.queue == []
  }

  /** The bytes of the first event that has any, up to the end of the stream. */
  function FirstIn(q: seq<RecvEvent>): (bytes: seq<Byte>) {
    if q == [] then [] else if q[0].data != [] || q[0].fin then q[0].data else FirstIn(q[1..])
  }

  /** The bytes that a read which skips empty events finds first. */
  function FirstData(rd: Reader): (bytes: seq<Byte>) {
    if rd.pending != [] then rd.pending else if rd.finished then [] else FirstIn(rd.queue)
  }

  function Flat(chunks: seq<seq<Byte>>): (r: seq<Byte>) {
    if chunks == [] then [] else Flat(chunks[..|chunks| - 1]) + chunks[|chunks| - 1]
  }

  function DataFrames(id: StreamId, chunks: seq<seq<Byte>>): (fs: seq<Frame>)
    ensures |fs| == |chunks|
  {
    seq(|chunks|, i requires 0 <= i < |chunks| => Stream(id, chunks[i], false))
  }

  /** Of `whole`, the chunks have been queued behind `from`, in order and within the limits, and `rest` is left. */
  predicate Published(id: StreamId, lim: Limits, from: seq<Frame>, whole: seq<Byte>,
                      chunks: seq<seq<Byte>>, outbound: seq<Frame>, rest: seq<Byte>) {
    && Flat(chunks) + rest == whole && outbound == from + DataFrames(id, chunks)
    && forall i :: 0 <= i < |chunks| ==> 0 < |chunks[i]| <= MaxChunk(lim)
  }

  /** The credit left. */
  function Left(flow: SendFlow): (n: nat) {
    if flow.maxData > flow.sentData then flow.maxData - flow.sentData else 0
  }

  /** How much of some bytes one frame takes: as much as a frame and the credit allow. */
  function Affordable(lim: Limits, bytes: seq<Byte>, flow: SendFlow): (n: nat) {
    Min(Min(|bytes|, MaxChunk(lim)), Left(flow))
  }

  /** Between the first chunk, for which credit may have been taken before, and the last, every chunk is as large as a
      frame allows. */
  predicate Unbroken(lim: Limits, chunks: seq<seq<Byte>>) {
    forall i :: 0 < i < |chunks| - 1 ==> |chunks[i]| == MaxChunk(lim)
  }

  lemma PublishedStart(id: StreamId, lim: Limits, from: seq<Frame>, whole: seq<Byte>)
    ensures Published(id, lim, from, whole, [], from, whole)
  {
  }

  lemma PublishedNext(id: StreamId, lim: Limits, from: seq<Frame>, whole: seq<Byte>, chunks: seq<seq<Byte>>,
                      outbound: seq<Frame>, left: seq<Byte>, chunk: seq<Byte>, outbound': seq<Frame>, rest: seq<Byte>)
    requires Published(id, lim, from, whole, chunks, outbound, left)
    requires 0 < |chunk| <= MaxChunk(lim)
    requires left == chunk + rest && outbound' == outbound + [Stream(id, chunk, false)]
    ensures Published(id, lim, from, whole, chunks + [chunk], outbound', rest)
  {
    hide Min;
    assert (chunks + [chunk])[..|chunks|] == chunks;
    assert DataFrames(id, chunks + [chunk]) == DataFrames(id, chunks) + [Stream(id, chunk, false)];
  }

  /** Writing on one stream neither adds nor removes a flow, and touches no other. */
  ghost predicate KeptApart(before: map<StreamId, SendFlow>, after: map<StreamId, SendFlow>, id: StreamId) {
    after.Keys == before.Keys && after - {id} == before - {id}
  }

  /** A send handle. A suspended write is `busy` and has yet to publish `rest`. */
  class SendStream {
    const session: Session
    const id: StreamId
    var finished: bool
    var busy: bool
    var api: nat
    var rest: seq<Byte>

    ghost predicate Sound()
      reads this, session
    {
      HandleOk(session.State(), id, finished, busy, rest)
    }

    constructor (session: Session, id: StreamId)
      requires id in session.writers && (id in session.sendFlows ==> session.sendFlows[id] == SendFlow(0, 0, [], false))
      ensures Sound() && this.session == session && this.id == id && !finished && !busy
    {
      this.session, this.id := session, id;
      finished, busy, api, rest := false, false, 0, [];
    }

    /** The first use fixes the API; mode 0 goes with either. */
    method SelectApi(mode: nat) returns (ok: bool)
      modifies `api
      ensures ok == (mode == 0 || old(api) == 0 || old(api) == mode)
      ensures api == if mode != 0 && old(api) == 0 then mode else old(api)
    {
      if mode == 0 { return true; }
      if api == 0 { api := mode; }
      ok := api == mode;
    }

    /** A second operation is turned away while one is suspended. */
    method BeginOperation(mode: nat) returns (ok: bool)
      modifies `api, `busy
      ensures ok == (!old(busy) && (mode == 0 || old(api) == 0 || old(api) == mode))
      ensures busy == (ok || old(busy)) && api == if mode != 0 && old(api) == 0 then mode else old(api)
    {
      ok := SelectApi(mode);
      if !ok { return; }
      if busy { return false; }
      busy := true;
    }

    method Write(data: seq<Byte>, permits: nat) returns (o: Outcome, ghost chunks: seq<seq<Byte>>)
      requires session.Valid() && Sound()
      modifies this, session`sendFlows, session`outbound, session`history
      ensures session.Valid() && Sound() && finished == old(finished)
      ensures KeptApart(old(session.sendFlows), session.sendFlows, id)
      ensures o.Refused? <==> old(busy) || old(api) > 1
      ensures o.Refused? ==> session.State() == old(session.State()) && rest == old(rest) && busy == old(busy)
      ensures !o.Refused? ==> && api == 1 && |chunks| <= permits && Unbroken(session.limits, chunks)
                              && Published(id, session.limits, old(session.outbound), data, chunks, session.outbound,
                                  rest)
      ensures o.Done? ==> rest == [] && !busy
      ensures o.Pending? ==> && busy && rest != [] && id in session.sendFlows
                             && (|chunks| == permits || session.sendFlows[id].maxData <= session.sendFlows[id].sentData)
      ensures o.Closed? ==> !busy && (old(finished) || session.closed || id !in session.sendFlows)
      ensures !o.Refused? && (old(finished) || old(session.closed) || (data != [] && id !in old(session.sendFlows))) ==>
                o.Closed?
    {
      hide Session.Valid;
      var ok := BeginOperation(1);
      if !ok { return Refused, []; }
      rest := data;
      if finished || session.closed {
        busy := false;
        return Closed, [];
      }
      o, chunks := PollWrite(permits);
    }

    /** Ask for credit for the next chunk. */
    method ReserveHead() returns (granted: bool)
      requires session.Valid() && Sound() && busy && !finished && rest != []
      requires id in session.sendFlows ==> session.sendFlows[id].reserved == []
      modifies session`sendFlows, session`history
      ensures session.Valid() && Sound() && old(session.history) <= session.history
      ensures KeptApart(old(session.sendFlows), session.sendFlows, id)
      ensures granted ==> id in session.sendFlows && session.sendFlows[id].reserved != []
      ensures granted ==> && id in old(session.sendFlows)
                          && |session.sendFlows[id].reserved|
                             == Affordable(session.limits, rest, old(session.sendFlows[id]))
                          && session.sendFlows[id].maxData == old(session.sendFlows[id].maxData)
                          && session.sendFlows[id].sentData
                             == old(session.sendFlows[id].sentData) + |session.sendFlows[id].reserved|
      ensures !granted ==> session.sendFlows == old(session.sendFlows)
      ensures !granted && id in session.sendFlows ==> session.sendFlows[id].maxData <= session.sendFlows[id].sentData
    {
      hide Run;
      var wanted := Min(|rest|, MaxChunk(session.limits));
      var grant := session.TryReserve(id, rest[..wanted]);
      granted := grant != 0;
    }

    /** Queue the chunk that holds credit: closing would have retired the flow, so the session is open. */
    method PublishHead() returns (chunk: seq<Byte>)
      requires session.Valid() && Sound() && busy && id in session.sendFlows && session.sendFlows[id].reserved != []
      modifies this, session`sendFlows, session`outbound, session`history
      ensures KeptApart(old(session.sendFlows), session.sendFlows, id)
      ensures session.Valid() && Sound() && busy && finished == old(finished) && old(session.history) <= session.history
      ensures api == old(api) && id in session.sendFlows
      ensures chunk == old(session.sendFlows[id].reserved) && chunk + rest == old(rest)
      ensures session.sendFlows[id] == old(session.sendFlows[id]).(reserved := [])
      ensures session.outbound == old(session.outbound) + [Stream(id, chunk, false)]
      ensures 0 < |chunk| <= MaxChunk(session.limits)
    {
      hide Run, AllOk, Bounded, WireOk, SessionLimits.Valid;
      chunk := session.sendFlows[id].reserved;
      assert |chunk| <= MaxChunk(session.limits) by {
        Reachable(session);
        FlowOf(session.State(), id);
      }
      assert !session.closed by { AbandonedIsGone(session, id); }
      var _ := session.Publish(id);
      rest := rest[|chunk|..];
    }

    /** One turn of the write loop: publish a chunk (`Done`), or wait, or give up. */
    method WriteChunk(permit: bool) returns (o: Outcome, chunk: seq<Byte>)
      requires session.Valid() && Sound() && busy && !finished && rest != []
      modifies this, session`sendFlows, session`outbound, session`history
      ensures KeptApart(old(session.sendFlows), session.sendFlows, id)
      ensures session.Valid() && Sound() && !finished && old(session.history) <= session.history && api == old(api)
      ensures o.Done? ==> && busy && permit && chunk + rest == old(rest) && id in session.sendFlows
                          && session.sendFlows[id].reserved == []
                          && session.outbound == old(session.outbound) + [Stream(id, chunk, false)]
                          && 0 < |chunk| <= MaxChunk(session.limits)
      ensures o.Done? && id in old(session.sendFlows) && old(session.sendFlows[id].reserved) == [] ==>
                && |chunk| == Affordable(session.limits, old(rest), old(session.sendFlows[id]))
                && Left(session.sendFlows[id]) == Left(old(session.sendFlows[id])) - |chunk|
      ensures !o.Done? ==> rest == old(rest) && session.outbound == old(session.outbound)
      ensures o.Pending? ==> busy && id in session.sendFlows
                             && (!permit || session.sendFlows[id].maxData <= session.sendFlows[id].sentData)
      ensures o.Closed? ==> !busy && (session.closed || id !in session.sendFlows)
      ensures !o.Refused?
    {
      hide Session.Valid;
      if id !in session.sendFlows || session.sendFlows[id].reserved == [] {
        var granted := ReserveHead();
        if !granted {
          if id in session.sendFlows && !session.closed { return Pending, []; }
          busy := false;
          return Closed, [];
        }
      }
      if !permit { return Pending, []; }
      chunk := PublishHead();
      return Done, chunk;
    }

    /** Carry on with a write: nothing is lost, repeated or reordered; every chunk is within the limits; the
        write waits only for credit or for a place in the queue. */
    method PollWrite(permits: nat) returns (o: Outcome, ghost chunks: seq<seq<Byte>>)
      requires session.Valid() && Sound() && busy && !finished
      modifies this, session`sendFlows, session`outbound, session`history
      ensures KeptApart(old(session.sendFlows), session.sendFlows, id)
      ensures session.Valid() && Sound() && old(session.history) <= session.history && !finished && api == old(api)
      ensures Published(id, session.limits, old(session.outbound), old(rest), chunks, session.outbound, rest)
      ensures |chunks| <= permits && Unbroken(session.limits, chunks)
      ensures o.Done? ==> rest == [] && !busy
      ensures o.Pending? ==> busy && rest != [] && id in session.sendFlows
                             && (|chunks| == permits || session.sendFlows[id].maxData <= session.sendFlows[id].sentData)
      ensures o.Closed? ==> !busy && rest != [] && (session.closed || id !in session.sendFlows)
      ensures old(rest) != [] && id !in old(session.sendFlows) ==> o.Closed?
      ensures !o.Refused?
    {
      hide Session.Valid, Published, Sound;
      chunks := [];
      var queued := 0;
      PublishedStart(id, session.limits, session.outbound, rest);
      while rest != []
        invariant session.Valid() && Sound() && busy && !finished && old(session.history) <= session.history
        invariant api == old(api) && KeptApart(old(session.sendFlows), session.sendFlows, id)
        invariant Published(id, session.limits, old(session.outbound), old(rest), chunks, session.outbound, rest)
        invariant queued == |chunks| <= permits && Unbroken(session.limits, chunks)
        invariant queued == 0 ==> rest == old(rest)
        invariant queued > 0 ==> id in session.sendFlows && session.sendFlows[id].reserved == []
        invariant queued > 0 ==> |chunks[queued - 1]| <= MaxChunk(session.limits)
        invariant queued > 1 && rest != [] && |chunks[queued - 1]| < MaxChunk(session.limits) ==>
                    Left(session.sendFlows[id]) == 0
        decreases |rest|
      {
        ghost var outbound, left := session.outbound, rest;
        var chunk;
        o, chunk := WriteChunk(queued < permits);
        if !o.Done? { return o, chunks; }
        PublishedNext(id, session.limits, old(session.outbound), old(rest), chunks, outbound, left, chunk,
            session.outbound, rest);
        chunks, queued := chunks + [chunk], queued + 1;
      }
      EndWrite();
      return Done, chunks;
    }

    method EndWrite()
      requires session.Valid() && Sound() && rest == []
      modifies `busy
      ensures session.Valid() && Sound() && !busy
    {
      busy := false;
    }

    /** The polled write: publish one chunk, or wait having spent no credit. */
    method PollAsyncWrite(data: seq<Byte>, permit: bool) returns (o: Outcome, n: nat)
      requires session.Valid() && Sound()
      modifies this, session`sendFlows, session`outbound, session`history
      ensures session.Valid() && Sound() && busy == old(busy) && finished == old(finished) && rest == old(rest)
      ensures KeptApart(old(session.sendFlows), session.sendFlows, id)
      ensures o.Refused? <==> old(busy) || old(api) == 1 || old(api) > 2
      ensures !o.Refused? ==> api == 2
      ensures o.Done? && data != [] ==>
                && id in old(session.sendFlows)
                && n == Affordable(session.limits, data, old(session.sendFlows[id]))
      ensures o.Done? ==> && n <= |data| && (n == 0 ==> data == [])
                          && session.outbound
                             == old(session.outbound) + (if n == 0 then [] else [Stream(id, data[..n], false)])
      ensures data == [] && !o.Refused? ==> o.Done?
      ensures !o.Done? ==> session.State() == old(session.State())
      ensures o.Pending? ==> id in session.sendFlows
                             && (!permit || session.sendFlows[id].maxData <= session.sendFlows[id].sentData)
      ensures o.Closed? <==>
              !o.Refused? && data != [] && (finished || old(session.closed) || id !in old(session.sendFlows))
    {
      hide Run, SessionLimits.Valid, Decodable;
      var ok := BeginOperation(2);
      if !ok { return Refused, 0; }
      busy := false;
      if data == [] { return Done, 0; }
      if finished || id !in session.sendFlows || session.closed { return Closed, 0; }
      o, n := OfferChunk(data, permit);
    }

    /** Take credit for the head of the data, as much as a frame and the window allow; none leaves all as it was, and
        giving it back would. */
    method TakeCredit(data: seq<Byte>) returns (n: nat)
      requires session.Valid() && Sound() && data != [] && !busy && !finished && id in session.sendFlows
               && !session.closed
      modifies session`sendFlows, session`history
      ensures session.Valid() && KeptApart(old(session.sendFlows), session.sendFlows, id)
      ensures n <= |data| && n <= MaxChunk(session.limits)
      ensures DoRelease(session.State(), id) == old(session.State()) && id in session.sendFlows
      ensures n == 0 ==> && session.State() == old(session.State())
                         && session.sendFlows[id].maxData <= session.sendFlows[id].sentData
      ensures n > 0 ==> && session.sendFlows[id].reserved == data[..n] && !session.sendFlows[id].finQueued
                        && id in session.writers
                        && n == Affordable(session.limits, data, old(session.sendFlows[id]))
    {
      hide Run, Decodable;
      var wanted := Min(|data|, MaxChunk(session.limits));
      n := session.TryReserve(id, data[..wanted]);
      assert data[..wanted][..n] == data[..n];
      assert DoRelease(session.State(), id).sendFlows == old(session.sendFlows);
    }

    method OfferChunk(data: seq<Byte>, permit: bool) returns (o: Outcome, n: nat)
      requires session.Valid() && Sound() && data != [] && !busy && !finished && id in session.sendFlows
               && !session.closed
      modifies session`sendFlows, session`outbound, session`history
      ensures session.Valid() && Sound() && KeptApart(old(session.sendFlows), session.sendFlows, id)
      ensures o.Done? || o.Pending?
      ensures o.Done? ==> && 0 < n <= |data|
                          && n == Affordable(session.limits, data, old(session.sendFlows[id]))
                          && session.outbound == old(session.outbound) + [Stream(id, data[..n], false)]
      ensures o.Pending? ==> session.State() == old(session.State())
                             && (!permit || session.sendFlows[id].maxData <= session.sendFlows[id].sentData)
    {
      hide Run, Decodable, DoReserve, SessionLimits.Valid;
      n := TakeCredit(data);
      if n == 0 { return Pending, 0; }
      if !permit {
        session.GiveBack(id);
        return Pending, 0;
      }
      var _ := session.Publish(id);
      return Done, n;
    }

    /** End the stream, up to the wait for a queue slot. Only the first call on a live stream gets that far. */
    method BeginFinish() returns (o: Outcome)
      requires session.Valid() && Sound()
      modifies this
      ensures Sound() && rest == old(rest)
      ensures o.Refused? <==> old(busy) || old(api) > 1
      ensures o.Done? <==> !o.Refused? && old(finished)
      ensures o.Closed? <==> !o.Refused? && !old(finished) && (session.closed || id !in session.sendFlows)
      ensures if o.Pending? then finished && busy && Ending() else finished == old(finished) && busy == old(busy)
    {
      var ok := BeginOperation(1);
      if !ok { return Refused; }
      if finished { busy := false; return Done; }
      if id !in session.sendFlows || session.closed { busy := false; return Closed; }
      finished := true;
      return Pending;
    }

    /** No FIN is queued yet and no credit is held, as `Handles.HandleStable` keeps it while other tasks act. */
    ghost predicate Ending()
      reads this, session
    {
      id in session.sendFlows ==> session.sendFlows[id].reserved == [] && !session.sendFlows[id].finQueued
    }

    /** A slot was free: the one FIN is queued and the flow retired, unless the flow has gone meanwhile. */
    method CompleteFinish() returns (o: Outcome)
      requires session.Valid() && Sound() && busy && finished && Ending()
      modifies this, session`sendFlows, session`outbound, session`history
      ensures session.Valid() && Sound() && !busy && finished && rest == old(rest)
      ensures o == if id in old(session.sendFlows) then Done else Closed
      ensures session.sendFlows == old(session.sendFlows) - {id}
      ensures session.outbound == old(session.outbound) + (if o.Done? then [Stream(id, [], true)] else [])
      ensures o.Closed? ==> session.State() == old(session.State())
    {
      hide Run, SessionLimits.Valid, Decodable;
      busy := false;
      if id !in session.sendFlows { return Closed; }
      var _ := session.SendFin(id);
      var _ := session.RemoveSendFlow(id);
      return Done;
    }

    /** Abandon the stream, up to the wait for a queue slot: the flow is retired at once. */
    method BeginReset(code: nat) returns (o: Outcome)
      requires session.Valid() && Sound()
      modifies this, session`sendFlows, session`history
      ensures session.Valid() && Sound() && rest == old(rest)
      ensures o.Refused? <==> old(busy) || code > MAX
      ensures o.Refused? ==> session.State() == old(session.State()) && finished == old(finished)
      ensures !o.Refused? ==> finished && session.sendFlows == old(session.sendFlows) - {id}
      ensures o.Closed? <==> !o.Refused? && session.closed
      ensures o.Pending? <==> !o.Refused? && !session.closed
      ensures busy == (old(busy) || o.Pending?)
    {
      hide Run, SessionLimits.Valid, Decodable;
      var ok := BeginOperation(0);
      if !ok { return Refused; }
      if code > MAX { busy := false; return Refused; }
      finished := true;
      var _ := session.RemoveSendFlow(id);
      if session.closed { busy := false; return Closed; }
      return Pending;
    }

    /** A slot was free: the reset is queued, unless the session has closed meanwhile. */
    method CompleteReset(code: nat) returns (o: Outcome)
      requires session.Valid() && Sound() && busy && finished && id !in session.sendFlows && code <= MAX
      modifies this, session`outbound, session`history
      ensures session.Valid() && Sound() && !busy && finished && rest == old(rest)
      ensures o == if session.closed then Closed else Done
      ensures session.outbound == old(session.outbound) + (if o.Done? then [ResetStream(id, code)] else [])
    {
      hide Run, SessionLimits.Valid, Decodable;
      busy := false;
      var ok := session.SendReset(id, code);
      return if ok then Done else Closed;
    }

    /** A write, finish or reset dropped while it waits takes the session down: no half-published end, no stranded
        credit. */
    method Abandon()
      requires session.Valid() && Sound() && busy
      modifies this, session
      ensures session.Valid() && Sound() && session.history == old(session.history) + [CloseSession] && !busy
      ensures session.closed && session.sendFlows == map[] && session.outbound == old(session.outbound)
    {
      hide Run, SessionLimits.Valid;
      session.RequestShutdown();
      busy := false;
    }

    /** Dropping the last clone resets an unfinished stream, or ends the session when the queue is full. */
    method Drop(room: bool)
      requires session.Valid() && Sound()
      modifies session
      ensures session.Valid() && session.writers == old(session.writers) - {id}
      ensures session.readers == old(session.readers)
      ensures !session.closed ==> session.sendFlows == old(session.sendFlows) - {id}
      ensures finished ==> session.outbound == old(session.outbound) && session.closed == old(session.closed)
      ensures !finished ==> if room && !old(session.closed)
                            then !session.closed && session.outbound == old(session.outbound) + [ResetStream(id, 0)]
                            else session.closed
    {
      hide Run, SessionLimits.Valid, Decodable;
      var _ := session.RemoveSendFlow(id);
      if !finished {
        if room && !session.closed {
          var _ := session.SendReset(id, 0);
        } else {
          session.RequestShutdown();
        }
      }
      session.ForgetWriter(id);
    }
  }

  /** A closed session has no send flow left, so nothing holds credit for an abandoned write. */
  lemma AbandonedIsGone(s: Session, id: StreamId)
    requires s.Valid()
    ensures s.closed ==> id !in s.sendFlows
  {
    hide AllOk, Bounded, WireOk;
    Reachable(s);
    ClosedOf(s.State(), id);
  }

  lemma Consumes(e: Endpoint, id: StreamId, n: nat)
    requires id in e.readers && n <= |e.readers[id].pending|
    ensures id in DoConsume(e, id, n).readers
    ensures DoConsume(e, id, n).readers[id].delivered == e.readers[id].delivered + e.readers[id].pending[..n]
  {
    hide QueueCredit, Target;
    if n > 0 {
      var rd1 := Handed(e.readers[id], n);
      var target := Target(e.limits.initialStreamWindow, rd1.consumed);
      CreditReaders(Raised(e, id, rd1.(granted := target)), id, target);
    }
  }

  lemma ViolationIgnoresQueue(e: Endpoint, id: StreamId)
    ensures HandOverViolation(Enqueue(e, InitialCredit(e, id)), id) == HandOverViolation(e, id)
  {
  }

  lemma NothingConsumed(e: Endpoint, id: StreamId)
    ensures DoConsume(e, id, 0) == e
  {
  }

  /** Every run of methods is a schedule, so every session object has what is proved of schedules. */
  lemma Reachable(s: Session)
    requires s.Valid()
    ensures AllOk(s.State()) && Bounded(s.State()) && WireOk(s.State())
  {
    hide Run, AllOk, Bounded, WireOk, SessionLimits.Valid;
    FreshKeeps(s.isServer, s.limits);
    RunKeeps(Fresh(s.isServer, s.limits), s.history);
    RunBounded(s.isServer, s.limits, s.history);
    RunWire(s.isServer, s.limits, s.history);
  }
}
