/** The browser session's frame handler. It cannot wait, so it offers to the outbound queue once what a native
    session waits to queue: the initial credit of an accepted stream, and the reset that answers a stop. */
module Browsers {
  import opened VarInts
  import opened Frames
  import opened SessionLimits
  import opened Endpoints
  import opened EndpointInvariant
  import opened EndpointTheorems
  import opened Links
  import opened Registry
  import opened Sessions
  import opened TwoParty
  import opened Liveness
  import opened FirstStream

  /** The queue refused a frame that a native session would have waited to queue. */
  predicate Starved(e: Endpoint, f: Frame, queued: bool) {
    match f
    case OpenUni(id) => !queued && Admissible(e, id, Uni)
    case OpenBi(id) => !queued && Admissible(e, id, Bi)
    case StopSending(id, _) => !queued && id in e.sendFlows
    case _ => false
  }

  /** A well-placed open for which there is a receive slot. */
  predicate Admissible(e: Endpoint, id: StreamId, dir: Dir) {
    OpenViolation(e, id, dir).None? && |e.streams| < e.limits.maxOpenStreams && id !in e.streams
  }

  lemma OpensAgree(e: Endpoint, id: StreamId, dir: Dir, queued: bool, room: bool)
    ensures ReceiveOpen(e, id, dir, queued, room) == ReceiveOpen(e, id, dir, true, room) <==>
            queued || !Admissible(e, id, dir)
  {
    hide OpenViolation, ProtocolError, HandOver, PassPeerFrontier;
    if OpenViolation(e, id, dir).None? {
      var e0 := PassPeerFrontier(e, id);
      PassedStreams(e, id);
      HandOverTells(e0, InitialCredit(e0, id), id);
      if HandOverViolation(e0, id).Some?
      { ErrorTells(e0, InitialCredit(e0, id), 3, HandOverViolation(e0, id).value, room); }
    }
  }

  /** A protocol error clears the receive registry, whatever was in it. */
  lemma ErrorForgets(e: Endpoint, streams: map<StreamId, RecvState>, code: nat, reason: string, room: bool)
    ensures ProtocolError(e.(streams := streams), code, reason, room) == ProtocolError(e, code, reason, room)
  {
    hide Ascii;
  }

  /** Queueing one more frame shows, whether the stream is then handed over or the session ends. */
  lemma HandOverTells(e: Endpoint, f: Frame, id: StreamId)
    ensures HandOver(Enqueue(e, f), id) != HandOver(e, id)
  {
    hide DirOf;
    assert |HandOver(Enqueue(e, f), id).outbound| == |HandOver(e, id).outbound| + 1;
  }

  lemma ErrorTells(e: Endpoint, f: Frame, code: nat, reason: string, room: bool)
    ensures ProtocolError(Enqueue(e, f), code, reason, room) != ProtocolError(e, code, reason, room)
  {
    hide Ascii;
    var a, b := ProtocolError(Enqueue(e, f), code, reason, room), ProtocolError(e, code, reason, room);
    assert |a.outbound| == |b.outbound| + 1;
  }

  /** Native and browser sessions react to every frame in the same way, state and error code alike, exactly when
      the browser's queue takes the frame that the native session waits to queue. Data, resets and credit never
      queue anything, so on these they always agree. */
  lemma Agreement(e: Endpoint, f: Frame, queued: bool, room: bool)
    requires !e.closed
    ensures HandleFrame(e, f, queued, room) == HandleFrame(e, f, true, room) <==> !Starved(e, f, queued)
    ensures f.Stream? || f.ResetStream? || f.MaxStreamData? || f.ConnectionClose? ==>
              HandleFrame(e, f, queued, room) == HandleFrame(e, f, true, room)
  {
    hide ReceiveOpen, ReceiveStream, ProtocolError, OpenViolation, IsRetiredDirection;
    match f
    case OpenUni(id) => OpensAgree(e, id, Uni, queued, room);
    case OpenBi(id) => OpensAgree(e, id, Bi, queued, room);
    case _ =>
  }

  /** A browser client and a native server: the server opens a stream, the open arrives, and the client's queue has
      no room for the initial credit. */
  const STARVING: seq<Move> := [Act(false, OpenUniStream(true)), Act(false, SendQueued), Deliver(true, false, true)]

  lemma OpenTaken(lim: Limits)
    requires Valid(lim)
    ensures var a := Step(Fresh(false, lim), Receive(OpenUni(3), false, true));
            && a.sent == [] && a.outbound == [] && a.pendingCredit == map[] && !a.closed
            && a.streams == map[3 := RecvState(false, 0, lim.initialStreamWindow)]
            && a.readers == map[3 := Reader([], [], 0, lim.initialStreamWindow, false, false, [], false)]
    ensures Starved(Fresh(false, lim), OpenUni(3), false)
  {
    hide Step, HandleFrame, DirOf, ByServer, Counter, SameRole;
    FirstUniId(true);
    FirstTaken(false, lim, false);
    StepForm(Fresh(false, lim), Receive(OpenUni(3), false, true));
  }

  /** A state in which the queue refuses what a native session waits for is reached, for every choice of limits;
      afterwards all is delivered and read, and the sender has no credit, now and ever after. */
  lemma StarvedRun(la: Limits, lb: Limits, more: seq<Move>)
    requires Valid(la) && Valid(lb)
    ensures var s2, s3 := Play(Start(la, lb), STARVING[..2]), Play(Start(la, lb), STARVING);
            && s2.seenByA < |s2.b.sent| && Starved(s2.a, s2.b.sent[s2.seenByA], false)
            && Liveness.Refused(la, lb, STARVING, false, 3) && Drained(s3, 3)
            && s3.b.sendFlows[3].sentData == s3.b.sendFlows[3].maxData == 0
    ensures var s := Play(Start(la, lb), STARVING + more);
            3 in s.b.sendFlows ==> s.b.sendFlows[3].sentData == s.b.sendFlows[3].maxData == 0
  {
    hide Step, Valid, Starved, Play;
    OpenSent(true, lb);
    OpenTaken(la);
    StarvingStates(la, lb);
    assert Refuses(Play(Start(la, lb), STARVING[..2]), STARVING[2], false, 3);
    StarvedForever(la, lb, STARVING, more, false, 3);
  }

  lemma StarvingStates(la: Limits, lb: Limits)
    requires Valid(la) && Valid(lb)
    ensures var a, b := Fresh(false, la), Step(Step(Fresh(true, lb), OpenUniStream(true)), SendQueued);
            && b.sent == [OpenUni(3)]
            && Play(Start(la, lb), STARVING[..2]) == System(a, b, 0, 0)
            && Play(Start(la, lb), STARVING) == System(Step(a, Receive(OpenUni(3), false, true)), b, 1, 0)
  {
    hide Step, Valid;
    OpenSent(true, lb);
    var s0 := Start(la, lb);
    assert STARVING[..2][..1] == STARVING[..1] && STARVING[..1][..0] == [];
    assert Play(s0, STARVING[..1]) == Move1(s0, STARVING[0]);
    assert Play(s0, STARVING[..2]) == Move1(Play(s0, STARVING[..1]), STARVING[1]);
  }

  // ---- An open given up halfway ----

  /** The client opens a stream and its queue takes the open frame only; the server accepts the stream and finishes
      its direction at once, which needs no credit. */
  const HALFWAY: seq<Move> := [Act(true, OpenBiStream(true, false)), Act(true, SendQueued), Deliver(false, true, true)]
  const FINISHING: seq<Move> := [Act(false, QueueFin(0)), Act(false, RemoveFlow(0)), Act(false, SendQueued)]
  const ARRIVING: seq<Move> := [Act(false, SendQueued), Deliver(true, true, true), Deliver(true, true, true)]

  lemma ClientBi()
    ensures DirOf(0) == Bi && !ByServer(0) && Counter(0) == 0 && NewId(0, false, Bi) == Some(0)
  {
  }

  /** The client after its open, and the server after it arrived. */
  lemma HalfwayStates(la: Limits, lb: Limits)
    requires Valid(la) && Valid(lb)
    ensures var a := Fresh(false, la).(nextBi := 1, sent := [OpenBi(0)]);
            && Play(Start(la, lb), HALFWAY) == System(a, Play(Start(la, lb), HALFWAY).b, 0, 1)
            && var b := Play(Start(la, lb), HALFWAY).b;
               && !b.closed && b.sent == [] && b.outbound == [MaxStreamData(0, lb.initialStreamWindow)]
               && b.sendFlows == map[0 := SendFlow(0, 0, [], false)]
  {
    hide Step, Valid, Play;
    PlayThree(Start(la, lb), HALFWAY[0], HALFWAY[1], HALFWAY[2]);
    assert HALFWAY == [HALFWAY[0], HALFWAY[1], HALFWAY[2]];
    ClientHalfOpens(la);
    ServerAccepts(lb);
  }

  lemma ClientHalfOpens(lim: Limits)
    requires Valid(lim)
    ensures Step(Step(Fresh(false, lim), OpenBiStream(true, false)), SendQueued)
            == Fresh(false, lim).(nextBi := 1, sent := [OpenBi(0)])
  {
    hide NewId;
    ClientBi();
    StepForm(Fresh(false, lim).(nextBi := 1, outbound := [OpenBi(0)]), SendQueued);
    assert Step(Fresh(false, lim), OpenBiStream(true, false))
           == Fresh(false, lim).(nextBi := 1, outbound := [OpenBi(0)]);
  }

  lemma ServerAccepts(lim: Limits)
    requires Valid(lim)
    ensures var b := Step(Fresh(true, lim), Receive(OpenBi(0), true, true));
            && !b.closed && b.sent == [] && b.outbound == [MaxStreamData(0, lim.initialStreamWindow)]
            && b.sendFlows == map[0 := SendFlow(0, 0, [], false)]
  {
    hide DirOf, ByServer, Counter, ProtocolError;
    ClientBi();
  }

  lemma ServerFinishes(b: Endpoint, max: nat)
    requires !b.closed && b.sent == [] && b.outbound == [MaxStreamData(0, max)]
    requires b.sendFlows == map[0 := SendFlow(0, 0, [], false)]
    ensures var r := Step(Step(Step(Step(b, QueueFin(0)), RemoveFlow(0)), SendQueued), SendQueued);
            r.sent == [MaxStreamData(0, max), Stream(0, [], true)] && !r.closed
  {
    hide Step;
    StepForm(b, QueueFin(0));
    StepForm(DoQueueFin(b, 0), RemoveFlow(0));
    var b2 := DoRemoveFlow(DoQueueFin(b, 0), 0);
    StepForm(b2, SendQueued);
    StepForm(DoSendQueued(b2), SendQueued);
  }

  lemma FinUndoes(a: Endpoint, max: nat)
    requires !a.closed && a.streams == map[] && a.sendFlows == map[] && Valid(a.limits)
    ensures Step(a, Receive(MaxStreamData(0, max), true, true)) == a
    ensures Step(a, Receive(Stream(0, [], true), true, true)).error == Some(2)
  {
    hide HandleFrame;
    StepForm(a, Receive(MaxStreamData(0, max), true, true));
    StepForm(a, Receive(Stream(0, [], true), true, true));
    FinUnknown(a, max);
  }

  lemma FinUnknown(a: Endpoint, max: nat)
    requires a.streams == map[] && a.sendFlows == map[] && Valid(a.limits)
    ensures HandleFrame(a, MaxStreamData(0, max), true, true) == a
    ensures HandleFrame(a, Stream(0, [], true), true, true).error == Some(2)
  {
    hide Ascii;
  }

  /** For every choice of limits: honest endpoints reach code 2, by an open that finds room for its first frame only
      and a FIN of the peer on that stream. */
  lemma HalfOpenRun(la: Limits, lb: Limits)
    requires Valid(la) && Valid(lb)
    ensures var moves := HALFWAY + FINISHING + ARRIVING;
            && Play(Start(la, lb), moves).a.error == Some(2) && Undone(la, lb, moves, false)
            && Liveness.Refused(la, lb, HALFWAY, false, 0) && Half(Play(Start(la, lb), HALFWAY).a, 0)
  {
    hide Step, Valid, Play, Half;
    var moves := HALFWAY + FINISHING + ARRIVING;
    HalfwayStates(la, lb);
    var s := Play(Start(la, lb), HALFWAY);
    PlayConcat(Start(la, lb), HALFWAY + FINISHING, ARRIVING);
    PlayConcat(Start(la, lb), HALFWAY, FINISHING);
    FinishingPlayed(s);
    RefusedHere(la, lb);
    ClientBi();
    HalfIff(la, lb, HALFWAY, false, 0);
    ServerFinishes(s.b, lb.initialStreamWindow);
    var b := Step(Step(Step(Step(s.b, QueueFin(0)), RemoveFlow(0)), SendQueued), SendQueued);
    FinUndoes(s.a, lb.initialStreamWindow);
    ArrivingPlayed(s, Step(Step(Step(s.b, QueueFin(0)), RemoveFlow(0)), SendQueued), lb.initialStreamWindow);
    PlayConcat(Start(la, lb), HALFWAY + FINISHING, ARRIVING[..2]);
    UndoneLast(la, lb, HALFWAY + FINISHING + ARRIVING[..2], ARRIVING[2]);
    assert HALFWAY + FINISHING + ARRIVING[..2] + [ARRIVING[2]] == moves;
  }

  lemma FinishingPlayed(s: System)
    ensures Play(s, FINISHING) == s.(b := Step(Step(Step(s.b, QueueFin(0)), RemoveFlow(0)), SendQueued))
  {
    hide Step, Play;
    PlayThree(s, FINISHING[0], FINISHING[1], FINISHING[2]);
    assert FINISHING == [FINISHING[0], FINISHING[1], FINISHING[2]];
  }

  lemma ArrivingPlayed(s: System, b: Endpoint, max: nat)
    requires Step(b, SendQueued).sent == [MaxStreamData(0, max), Stream(0, [], true)] && s.seenByA == 0 && !s.a.closed
    requires Step(s.a, Receive(MaxStreamData(0, max), true, true)) == s.a && Half(s.a, 0)
    ensures Play(s.(b := b), ARRIVING).a == Step(s.a, Receive(Stream(0, [], true), true, true))
    ensures Undoes(Play(s.(b := b), ARRIVING[..2]), ARRIVING[2], false)
  {
    hide Step, Play, Half;
    PlayThree(s.(b := b), ARRIVING[0], ARRIVING[1], ARRIVING[2]);
    PlayTwo(s.(b := b), ARRIVING[0], ARRIVING[1]);
    assert ARRIVING == [ARRIVING[0], ARRIVING[1], ARRIVING[2]] && ARRIVING[..2] == [ARRIVING[0], ARRIVING[1]];
  }

  lemma UndoneLast(la: Limits, lb: Limits, front: seq<Move>, m: Move)
    requires Undoes(Play(Start(la, lb), front), m, false)
    ensures Undone(la, lb, front + [m], false)
  {
    hide Undoes, Play;
    assert (front + [m])[..|front|] == front;
  }

  lemma RefusedHere(la: Limits, lb: Limits)
    requires Valid(la) && Valid(lb)
    ensures Liveness.Refused(la, lb, HALFWAY, false, 0)
  {
    hide Step, NewId;
    ClientBi();
    assert HALFWAY[..2][..1] == HALFWAY[..1] && HALFWAY[..1][..0] == [];
    assert Refuses(Start(la, lb), HALFWAY[0], false, 0);
    assert Liveness.Refused(la, lb, HALFWAY[..1], false, 0);
    assert Liveness.Refused(la, lb, HALFWAY[..2], false, 0);
  }

  lemma RegisteredAlready(e: Endpoint, entered: Endpoint, j: StreamId)
    requires entered == e.(sendFlows := e.sendFlows[j := SendFlow(0, 0, [], false)],
                           streams := e.streams[j := RecvState(false, 0, e.limits.initialStreamWindow)])
    ensures RegisterRecv(RegisterSend(entered, j), j) == RegisterRecv(RegisterSend(e, j), j)
    ensures InitialCredit(entered, j) == InitialCredit(e, j)
  {
    assert entered.sendFlows[j := SendFlow(0, 0, [], false)] == entered.sendFlows;
    assert entered.streams[j := RecvState(false, 0, e.limits.initialStreamWindow)] == entered.streams;
  }

  lemma NewToRegistry(e: Endpoint, j: StreamId)
    requires AllOk(e) && NewId(e.nextBi, e.isServer, Bi) == Some(j)
    ensures j !in e.streams
  {
    hide AllOk, Known, NewId, StreamOk;
    StreamOf(e, j);
    if j in e.streams {
      HeldIsKnown(e, j);
      UnknownAllocation(e, Bi, j, j);
    }
  }

  /** The browser's handler over the session's registries. The browser is always the client. */
  class BrowserSession {
    const core: Session

    constructor (core: Session)
      ensures this.core == core
    {
      this.core := core;
    }

    /** Register a new stream and offer its open; a refused frame takes the registration back. */
    method AnnounceUni(j: StreamId, queued: bool)
      requires j !in core.sendFlows
      modifies core
      ensures core.State() == if queued then Enqueue(RegisterSend(old(core.State()), j), OpenUni(j))
              else old(core.State())
    {
      core.sendFlows := core.sendFlows[j := SendFlow(0, 0, [], false)];
      if queued {
        core.outbound := core.outbound + [OpenUni(j)];
        core.writers := core.writers + {j};
      } else {
        core.sendFlows := core.sendFlows - {j};
        assert core.sendFlows == old(core.sendFlows);
      }
    }

    method OpenUniStream(queued: bool) returns (id: Option<StreamId>)
      requires !core.isServer && (core.closed ==> !queued)
      modifies core
      ensures core.State() == if old(core.closed) then old(core.State()).(nextUni := old(core.nextUni) + 1)
                              else DoOpenUni(old(core.State()), queued)
      ensures var got, e := NewId(old(core.nextUni), false, Uni), old(core.State());
              id == if queued && got.Some? && SendSlotFree(e, got.value) then got else None
    {
      hide NewId, RegisterSend, Enqueue;
      var got := NewId(core.nextUni, false, Uni);
      core.nextUni := core.nextUni + 1;
      if got.None? { return None; }
      if |core.sendFlows| >= core.limits.maxOpenStreams || got.value in core.sendFlows { return None; }
      AnnounceUni(got.value, queued);
      return if queued then got else None;
    }

    /** Hand the two frames and the handles of a registered stream out. */
    method HandOut(j: StreamId)
      requires j in core.sendFlows && core.sendFlows[j] == SendFlow(0, 0, [], false)
      requires j in core.streams && core.streams[j] == RecvState(false, 0, core.limits.initialStreamWindow)
      modifies core
      ensures core.State() == Enqueue(Enqueue(RegisterRecv(RegisterSend(old(core.State()), j), j), OpenBi(j)),
                                      InitialCredit(old(core.State()), j))
    {
      core.outbound := core.outbound + [OpenBi(j)];
      core.outbound := core.outbound + [MaxStreamData(j, core.limits.initialStreamWindow)];
      core.writers := core.writers + {j};
      core.readers := core.readers[j := NewReader(core.State())];
      assert core.sendFlows[j := SendFlow(0, 0, [], false)] == core.sendFlows;
      assert core.streams[j := RecvState(false, 0, core.limits.initialStreamWindow)] == core.streams;
    }

    /** Take both registrations back, with the open on its way or not. */
    method TakeBack(j: StreamId, queued: bool)
      modifies core
      ensures var e := old(core.State()).(streams := old(core.streams) - {j}, sendFlows := old(core.sendFlows) - {j});
              core.State() == if queued then Enqueue(e, OpenBi(j)) else e
    {
      if queued { core.outbound := core.outbound + [OpenBi(j)]; }
      core.streams := core.streams - {j};
      core.sendFlows := core.sendFlows - {j};
    }

    /** Register both directions of a new stream and offer its two frames; if either is refused, both registrations
        are taken back, though the first frame may already be on its way. */
    method AnnounceBi(j: StreamId, queued: bool, credited: bool)
      requires j !in core.sendFlows && j !in core.streams
      modifies core
      ensures var e := old(core.State());
              core.State() == if queued && credited
                              then Enqueue(Enqueue(RegisterRecv(RegisterSend(e, j), j), OpenBi(j)), InitialCredit(e, j))
                              else if queued then Enqueue(e, OpenBi(j)) else e
    {
      hide Enqueue, RegisterRecv, RegisterSend;
      core.sendFlows := core.sendFlows[j := SendFlow(0, 0, [], false)];
      core.streams := core.streams[j := RecvState(false, 0, core.limits.initialStreamWindow)];
      ghost var entered := core.State();
      if queued && credited {
        HandOut(j);
        RegisteredAlready(old(core.State()), entered, j);
      } else {
        TakeBack(j, queued);
        assert entered.streams - {j} == old(core.streams) && entered.sendFlows - {j} == old(core.sendFlows);
      }
    }

    method OpenBiStream(queued: bool, credited: bool) returns (id: Option<StreamId>)
      requires !core.isServer && AllOk(core.State()) && (core.closed ==> !queued)
      modifies core
      ensures core.State() == if old(core.closed) then old(core.State()).(nextBi := old(core.nextBi) + 1)
                              else DoOpenBi(old(core.State()), queued, credited)
      ensures var got, e := NewId(old(core.nextBi), false, Bi), old(core.State());
              id == if queued && credited && got.Some? && SendSlotFree(e, got.value) then got else None
    {
      hide NewId, AllOk, RegisterSend, RegisterRecv, Enqueue;
      var got := NewId(core.nextBi, false, Bi);
      core.nextBi := core.nextBi + 1;
      if got.None? { return None; }
      if |core.sendFlows| >= core.limits.maxOpenStreams || got.value in core.sendFlows { return None; }
      NewToRegistry(old(core.State()), got.value);
      AnnounceBi(got.value, queued, credited);
      return if queued && credited then got else None;
    }

    method OpenFrom(id: StreamId, dir: Dir, queued: bool, room: bool)
      requires !core.isServer
      modifies core
      ensures core.State() == ReceiveOpen(old(core.State()), id, dir, queued, room)
    {
      hide ProtocolError, Admit, DirOf, Counter, ByServer;
      if DirOf(id) != dir {
        core.Fail(1, if dir.Uni? then "OpenUni with non-uni StreamId" else "OpenBi with non-bi StreamId", room);
        return;
      }
      if !ByServer(id) {
        core.Fail(1, if dir.Uni? then "OpenUni with wrong initiator" else "OpenBi with wrong initiator", room);
        return;
      }
      if Counter(id) < (if dir.Uni? then core.nextPeerUni else core.nextPeerBi) {
        core.Fail(1, if dir.Uni? then "OpenUni with non-monotonic StreamId"
            else "OpenBi with non-monotonic StreamId", room);
        return;
      }
      if dir.Uni? { core.nextPeerUni := Counter(id) + 1; } else { core.nextPeerBi := Counter(id) + 1; }
      Register(id, queued, room);
    }

    method Register(id: StreamId, queued: bool, room: bool)
      modifies core
      ensures core.State() == Admit(old(core.State()), id, queued, room)
    {
      hide ProtocolError, HandOver, HandOverViolation;
      if |core.streams| >= core.limits.maxOpenStreams {
        core.Fail(3, "too many open streams", room);
      } else if id in core.streams {
        core.Fail(1, "duplicate stream open", room);
      } else {
        ViolationIgnoresQueue(core.State(), id);
        if queued { core.outbound := core.outbound + [MaxStreamData(id, core.limits.initialStreamWindow)]; }
        var refusal := core.Deliver(id);
        if refusal.Some? { core.Fail(3, refusal.value, room); }
      }
    }

    /** The browser decides removal and overflow while it holds the stream, and reports afterwards. */
    method DataFrom(id: StreamId, data: seq<Byte>, fin: bool, room: bool)
      modifies core
      ensures core.State() == ReceiveStream(old(core.State()), id, data, fin, room)
    {
      hide ProtocolError;
      if |data| > core.limits.maxStreamDataPerFrame { core.Fail(2, "stream data too large", room); return; }
      var refusal := None;
      var overflow := false;
      if id !in core.streams {
        refusal := Some("Stream data on unknown stream");
      } else {
        var state := core.streams[id];
        var received := state.received + |data|;
        if received > U64_MAX {
          refusal := Some("stream data overflow");
        } else if received > state.maxData {
          refusal := Some("stream flow-control limit exceeded");
        } else {
          core.streams := core.streams[id := state.(received := received)];
          if !state.stopped && id in core.readers {
            var rd := core.readers[id];
            overflow := |rd.queue| >= core.limits.recvEventQueueLen;
            if !overflow { core.readers := core.readers[id := rd.(queue := rd.queue + [RecvEvent(data, fin)])]; }
          }
          if fin { core.streams := core.streams - {id}; }
        }
      }
      if refusal.Some? { core.Fail(2, refusal.value, room); return; }
      if overflow {
        ErrorForgets(old(core.State()), core.streams, 3, "receive queue full", room);
        core.Fail(3, "receive queue full", room);
      }
    }

    /** A reset or a stop request; a refused answer ends the session's task. */
    method EndFrom(f: Frame, queued: bool, room: bool)
      requires !core.isServer && (f.ResetStream? || f.StopSending?)
      modifies core
      ensures core.State() == HandleFrame(old(core.State()), f, queued, room)
      ensures f.StopSending? && f.id in old(core.sendFlows) && queued ==>
                core.outbound == old(core.outbound) + [ResetStream(f.id, f.code)] && f.id !in core.sendFlows
      ensures f.StopSending? && f.id in old(core.sendFlows) && !queued ==> core.closed
    {
      hide ProtocolError, IsRetiredDirection;
      if f.ResetStream? {
        var removed := f.id in core.streams;
        assert !removed ==> core.streams - {f.id} == core.streams;
        core.streams := core.streams - {f.id};
        if !removed && !IsRetiredDirection(core.State(), f.id, true) { core.Fail(1, "reset on unknown stream", room); }
      } else if f.id in core.sendFlows {
        core.sendFlows := core.sendFlows - {f.id};
        if queued { core.outbound := core.outbound + [ResetStream(f.id, f.code)]; } else { core.CloseFields(); }
      } else if !IsRetiredDirection(core.State(), f.id, false) {
        core.Fail(1, "stop on unknown stream", room);
      }
    }

    /** One inbound frame, as the browser handles it. */
    method HandleFrom(f: Frame, queued: bool, room: bool) returns (ok: bool)
      requires !core.isServer
      modifies core
      ensures core.State() == HandleFrame(old(core.State()), f, queued, room) && ok == !core.closed
      ensures f.ConnectionClose? ==>
                && !ok && core.closed && core.streams == map[] && core.sendFlows == map[] && core.pendingCredit == map[]
                && core.error == old(core.error) && core.outbound == old(core.outbound)
    {
      hide ProtocolError, ReceiveOpen, ReceiveStream, IsRetiredDirection, AnswerStop;
      match f {
        case OpenUni(id) => OpenFrom(id, Uni, queued, room);
        case OpenBi(id) => OpenFrom(id, Bi, queued, room);
        case Stream(id, data, fin) => DataFrom(id, data, fin, room);
        case ResetStream(_, _) => EndFrom(f, queued, room);
        case StopSending(_, _) => EndFrom(f, queued, room);
        case MaxStreamData(id, max) =>
          if id in core.sendFlows {
            core.sendFlows := core.sendFlows[id :=
                core.sendFlows[id].(maxData := Max(core.sendFlows[id].maxData, max))];
          }
        case ConnectionClose(_, _) => core.CloseFields();
      }
      ok := !core.closed;
    }
  }
}
