/** Progress. From every reachable state of two open endpoints, deliveries, reads and steps of the writers drain a live
    stream, and so give its sender credit, unless one of the sessions ends on the way. */
module Draining {
  import opened VarInts
  import opened Frames
  import opened SessionLimits
  import opened Endpoints
  import opened Views
  import opened EndpointInvariant
  import opened EndpointTheorems
  import opened Links
  import opened TwoParty
  import opened Liveness
  import opened Overflow
  import opened HonestClosings
  import opened FrameSizes
  import opened Exchanges
  import Reactions

  function Here(la: Limits, lb: Limits, moves: seq<Move>, flipped: bool): (s: System) {
    Facing(Play(Start(la, lb), moves), flipped)
  }

  lemma ActHere(la: Limits, lb: Limits, moves: seq<Move>, flipped: bool, action: Action)
    ensures Here(la, lb, moves + [Act(!flipped, action)], flipped) == ActA(Here(la, lb, moves, flipped), action)
  {
    hide ActA;
    assert (moves + [Act(!flipped, action)])[..|moves|] == moves;
  }

  lemma DeliverHere(la: Limits, lb: Limits, moves: seq<Move>, flipped: bool)
    ensures Here(la, lb, moves + [Deliver(!flipped, true, true)], flipped)
            == DeliverA(Here(la, lb, moves, flipped), true, true)
  {
    hide DeliverA;
    assert (moves + [Deliver(!flipped, true, true)])[..|moves|] == moves;
  }

  lemma OtherSide(la: Limits, lb: Limits, moves: seq<Move>, flipped: bool)
    ensures Here(la, lb, moves, !flipped) == Flip(Here(la, lb, moves, flipped))
  {
    hide Play;
  }

  // ---- One frame ----

  /** The frames that end the peer's direction of a stream, and the one that asks to end ours. */
  predicate Ends(f: Frame, id: StreamId) {
    (f.Stream? && f.id == id && f.fin) || (f.ResetStream? && f.id == id)
  }

  predicate Stops(f: Frame, id: StreamId) {
    f.StopSending? && f.id == id
  }

  predicate Opener(f: Frame) {
    f.OpenUni? || f.OpenBi?
  }

  /** Credits and resets, which end no session and carry no data. */
  predicate Mild(f: Frame) {
    f.MaxStreamData? || f.ResetStream?
  }

  predicate AllMild(fs: seq<Frame>) {
    forall f :: f in fs ==> Mild(f)
  }

  /** What an endpoint that stays open queues in return. */
  function Reply(e: Endpoint, f: Frame): (fs: seq<Frame>)
    ensures AllMild(fs)
  {
    match f
    case OpenUni(j) => [InitialCredit(e, j)]
    case OpenBi(j) => [InitialCredit(e, j)]
    case StopSending(j, code) => if j in e.sendFlows then [ResetStream(j, code)] else []
    case _ => []
  }

  lemma Replies(e: Endpoint, f: Frame)
    requires !HandleFrame(e, f, true, true).closed
    ensures var r := HandleFrame(e, f, true, true); r.outbound == e.outbound + Reply(e, f) && r.sent == e.sent
  {
    hide ReceiveOpen, ReceiveStream, IsRetiredDirection, ProtocolError, AnswerStop;
    match f
    case OpenUni(j) => OpenReplies(e, j, Uni);
    case OpenBi(j) => OpenReplies(e, j, Bi);
    case Stream(j, data, fin) => DataReplies(e, j, data, fin);
    case StopSending(j, code) =>
      ErrorCloses(e, 1, "stop on unknown stream");
      if j in e.sendFlows { StopReplies(e, j, code); }
    case ResetStream(j, _) => ErrorCloses(e, 1, "reset on unknown stream");
    case _ =>
  }

  lemma StopReplies(e: Endpoint, j: StreamId, code: nat)
    ensures AnswerStop(e, j, code, true).outbound == e.outbound + [ResetStream(j, code)]
  {
    hide Steady;
  }

  lemma DataReplies(e: Endpoint, j: StreamId, data: seq<Byte>, fin: bool)
    requires !ReceiveStream(e, j, data, fin, true).closed
    ensures ReceiveStream(e, j, data, fin, true).outbound == e.outbound
  {
    hide StreamViolation, Ascii;
  }

  lemma OpenReplies(e: Endpoint, j: StreamId, dir: Dir)
    requires !ReceiveOpen(e, j, dir, true, true).closed
    ensures ReceiveOpen(e, j, dir, true, true).outbound == e.outbound + [InitialCredit(e, j)]
  {
    hide ReceiveOpen, HandOver, Enqueue, PassPeerFrontier, DirOf, InitialCredit, Steady;
    TakenForm(e, j, dir);
    OpenQueued(e, j);
    HandOverFields(Enqueue(PassPeerFrontier(e, j), InitialCredit(e, j)), j);
  }

  /** A stream that is received on, was not stopped and has its reader. */
  predicate LiveIn(e: Endpoint, id: StreamId) {
    id in e.streams && !e.streams[id].stopped && id in e.readers
  }

  lemma StreamKept(e: Endpoint, f: Frame, id: StreamId)
    requires LiveIn(e, id) && !Ends(f, id) && !HandleFrame(e, f, true, true).closed
    ensures LiveIn(HandleFrame(e, f, true, true), id)
  {
    hide ReceiveOpen, ReceiveStream, IsRetiredDirection, ProtocolError;
    match f
    case OpenUni(j) => OpenKeepsStream(e, j, Uni, id);
    case OpenBi(j) => OpenKeepsStream(e, j, Bi, id);
    case Stream(j, data, fin) => DataKeepsStream(e, j, data, fin, id);
    case StopSending(j, code) => ErrorCloses(e, 1, "stop on unknown stream");
    case ResetStream(j, _) => ErrorCloses(e, 1, "reset on unknown stream");
    case _ =>
  }

  lemma DataKeepsStream(e: Endpoint, j: StreamId, data: seq<Byte>, fin: bool, id: StreamId)
    requires LiveIn(e, id) && !(j == id && fin) && !ReceiveStream(e, j, data, fin, true).closed
    ensures LiveIn(ReceiveStream(e, j, data, fin, true), id)
  {
    hide StreamViolation, ProtocolError;
    if StreamViolation(e, j, data).Some? {
      ErrorCloses(e, StreamViolation(e, j, data).value.0, StreamViolation(e, j, data).value.1);
    }
  }

  lemma OpenKeepsStream(e: Endpoint, j: StreamId, dir: Dir, id: StreamId)
    requires LiveIn(e, id) && !ReceiveOpen(e, j, dir, true, true).closed
    ensures LiveIn(ReceiveOpen(e, j, dir, true, true), id)
  {
    hide ReceiveOpen, HandOver, Enqueue, PassPeerFrontier, DirOf, InitialCredit, Steady, NewReader;
    TakenForm(e, j, dir);
    OpenQueued(e, j);
    HandOverFields(Enqueue(PassPeerFrontier(e, j), InitialCredit(e, j)), j);
  }

  /** A send flow with the same books. */
  predicate SameFlow(e: Endpoint, r: Endpoint, id: StreamId) {
    && id in e.sendFlows && id in r.sendFlows
    && r.sendFlows[id] == e.sendFlows[id].(maxData := r.sendFlows[id].maxData)
  }

  lemma FlowKept(e: Endpoint, f: Frame, id: StreamId)
    requires id in e.sendFlows && !Stops(f, id) && !HandleFrame(e, f, true, true).closed
    ensures SameFlow(e, HandleFrame(e, f, true, true), id)
  {
    hide ReceiveOpen, ReceiveStream, IsRetiredDirection, ProtocolError;
    match f
    case OpenUni(j) => OpenKeepsFlow(e, j, Uni, id);
    case OpenBi(j) => OpenKeepsFlow(e, j, Bi, id);
    case Stream(j, data, fin) => DataKeepsFlow(e, j, data, fin, id);
    case StopSending(j, code) => ErrorCloses(e, 1, "stop on unknown stream");
    case ResetStream(j, _) => ErrorCloses(e, 1, "reset on unknown stream");
    case _ =>
  }

  lemma DataKeepsFlow(e: Endpoint, j: StreamId, data: seq<Byte>, fin: bool, id: StreamId)
    requires id in e.sendFlows && !ReceiveStream(e, j, data, fin, true).closed
    ensures SameFlow(e, ReceiveStream(e, j, data, fin, true), id)
  {
    hide StreamViolation, Ascii;
  }

  lemma OpenKeepsFlow(e: Endpoint, j: StreamId, dir: Dir, id: StreamId)
    requires id in e.sendFlows && !ReceiveOpen(e, j, dir, true, true).closed
    ensures SameFlow(e, ReceiveOpen(e, j, dir, true, true), id)
  {
    hide ReceiveOpen, HandOver, Enqueue, PassPeerFrontier, DirOf, InitialCredit, Steady, NewReader;
    TakenForm(e, j, dir);
    OpenQueued(e, j);
    HandOverFields(Enqueue(PassPeerFrontier(e, j), InitialCredit(e, j)), j);
  }

  // ---- Handling all that is in transit ----

  predicate AllWait(moves: seq<Move>) {
    forall i :: 0 <= i < |moves| ==> Waits(moves[i])
  }

  predicate NoOpeners(fs: seq<Frame>) {
    forall f :: f in fs ==> !Opener(f)
  }

  /** Native sessions, and nothing in transit to a that can end its session as long as it reads. */
  predicate Smooth(la: Limits, lb: Limits, moves: seq<Move>, flipped: bool) {
    var s := Here(la, lb, moves, flipped);
    && AllWait(moves) && Takes(Ours(la, lb, flipped), Theirs(la, lb, flipped)) && !s.a.closed && !s.b.closed
    && s.seenByA <= |s.b.sent| && NoOpeners(s.b.sent[s.seenByA..])
  }

  lemma NeverHalf(la: Limits, lb: Limits, moves: seq<Move>, flipped: bool, id: StreamId)
    requires Valid(la) && Valid(lb) && AllWait(moves)
    ensures !Half(Here(la, lb, moves, flipped).a, id)
  {
    hide Valid, Waits, Half, Refused, Play;
    NativeNeverRefuses(la, lb, moves, flipped, id);
    HalfIff(la, lb, moves, flipped, id);
  }

  /** The next frame is data that is too large, or that finds its receive queue full. */
  predicate Unfit(s: System) {
    && s.seenByA < |s.b.sent| && s.b.sent[s.seenByA].Stream?
    && (|s.b.sent[s.seenByA].data| > s.a.limits.maxStreamDataPerFrame || Overflows(s))
  }

  /** Data in transit is turned down exactly for one of these reasons. */
  lemma DataVerdict(la: Limits, lb: Limits, moves: seq<Move>, flipped: bool)
    requires Valid(la) && Valid(lb) && AllWait(moves)
    requires var s := Here(la, lb, moves, flipped); !s.a.closed && s.seenByA < |s.b.sent| && s.b.sent[s.seenByA].Stream?
    ensures var s := Here(la, lb, moves, flipped);
            var f := s.b.sent[s.seenByA]; StreamViolation(s.a, f.id, f.data).Some? <==> Unfit(s)
  {
    hide Inv, LinkOk, SeenView, StreamViolation, StreamOk, AllOk, WireOk, Half, Shaped, Placed, Valid, Play, Facing;
    hide AllWait;
    var s := Here(la, lb, moves, flipped);
    var f := s.b.sent[s.seenByA];
    Reached(la, lb, moves, flipped);
    NeverHalf(la, lb, moves, flipped, f.id);
    ShapeOf(s);
    SideOf(s);
    NextFramePlaced(s, f.id);
    LinkOf(s, f.id);
    StreamOf(s.a, f.id);
    DataPlaced(s.a, f.id, f.data, f.fin, ByA(s, f.id), ByA(Flip(s), f.id));
  }

  /** A frame that ends nothing leaves an open endpoint open. */
  lemma KeepsOpen(e: Endpoint, f: Frame)
    requires !e.closed && !Opener(f) && !f.ConnectionClose?
    requires f.Stream? ==> StreamViolation(e, f.id, f.data).None?
    requires f.ResetStream? || f.StopSending? ==> IsRetiredDirection(e, f.id, f.ResetStream?)
    ensures !HandleFrame(e, f, true, true).closed
  {
    hide ReceiveOpen, StreamViolation, IsRetiredDirection, ProtocolError;
  }

  lemma StaysOpen(la: Limits, lb: Limits, moves: seq<Move>, flipped: bool)
    requires Valid(la) && Valid(lb) && AllWait(moves)
    requires var s := Here(la, lb, moves, flipped);
             && !s.a.closed && s.seenByA < |s.b.sent|
             && !Opener(s.b.sent[s.seenByA]) && !s.b.sent[s.seenByA].ConnectionClose? && !Unfit(s)
    ensures !DeliverA(Here(la, lb, moves, flipped), true, true).a.closed
  {
    hide Inv, StreamViolation, IsRetiredDirection, HandleFrame, Valid, Play, Facing, Unfit, AllWait, Step;
    var s := Here(la, lb, moves, flipped);
    var f := s.b.sent[s.seenByA];
    Reached(la, lb, moves, flipped);
    if f.Stream? { DataVerdict(la, lb, moves, flipped); }
    if f.ResetStream? || f.StopSending? { NextTerminalPlaced(s, f.id); }
    KeepsOpen(s.a, f);
    StepForm(s.a, Receive(f, true, true));
  }

  lemma UnfitCloses(la: Limits, lb: Limits, moves: seq<Move>, flipped: bool)
    requires Valid(la) && Valid(lb) && AllWait(moves)
    requires var s := Here(la, lb, moves, flipped); !s.a.closed && Unfit(s)
    ensures DeliverA(Here(la, lb, moves, flipped), true, true).a.closed
  {
    hide StreamViolation, HandleFrame, Valid, Play, Facing, AllWait, Step, Overflows;
    var s := Here(la, lb, moves, flipped);
    var f := s.b.sent[s.seenByA];
    DataVerdict(la, lb, moves, flipped);
    StepForm(s.a, Receive(f, true, true));
    TurnedDown(s.a, f);
  }

  lemma TurnedDown(e: Endpoint, f: Frame)
    requires f.Stream? && StreamViolation(e, f.id, f.data).Some?
    ensures HandleFrame(e, f, true, true).closed
  {
    hide StreamViolation, ProtocolError;
    var v := StreamViolation(e, f.id, f.data).value;
    ErrorCloses(e, v.0, v.1);
  }

  /** An open for which the endpoint lacks a receive slot, a send slot or room in its accept queue. */
  predicate Slotless(e: Endpoint, f: Frame) {
    Opener(f) && (|e.streams| >= e.limits.maxOpenStreams || HandOverViolation(e, f.id).Some?)
  }

  lemma OpenCloses(s: System)
    requires Inv(s) && !s.a.closed && s.seenByA < |s.b.sent| && Opener(s.b.sent[s.seenByA])
    ensures DeliverA(s, true, true).a.closed <==> Slotless(s.a, s.b.sent[s.seenByA])
  {
    hide Inv, Step, HandleFrame, OpenViolation, ReceiveOpen, Slotless;
    var f := s.b.sent[s.seenByA];
    var dir := if f.OpenUni? then Uni else Bi;
    NextOpenPlaced(s, f.id, dir);
    StepForm(s.a, Receive(f, true, true));
    OpenHandled(s.a, f);
    AdmittedIff(s.a, f.id, dir, f);
  }

  lemma OpenHandled(e: Endpoint, f: Frame)
    requires Opener(f)
    ensures HandleFrame(e, f, true, true) == ReceiveOpen(e, f.id, if f.OpenUni? then Uni else Bi, true, true)
  {
    hide ReceiveOpen;
  }

  lemma AdmittedIff(e: Endpoint, j: StreamId, dir: Dir, f: Frame)
    requires !e.closed && OpenViolation(e, j, dir).None? && j !in e.streams && Opener(f) && f.id == j
    ensures ReceiveOpen(e, j, dir, true, true).closed <==> Slotless(e, f)
  {
    hide OpenViolation, HandOver, HandOverViolation, ProtocolError, Enqueue, PassPeerFrontier, Steady, InitialCredit;
    var e1 := PassPeerFrontier(e, j);
    PassedStays(e, j);
    ErrorCloses(e1, 3, "too many open streams");
    if HandOverViolation(e1, j).Some? {
      ErrorCloses(Enqueue(e1, InitialCredit(e1, j)), 3, HandOverViolation(e1, j).value);
    }
    HandedOpen(Enqueue(e1, InitialCredit(e1, j)), j);
    QueuedOpen(e1, j);
  }

  lemma PassedStays(e: Endpoint, j: StreamId)
    ensures var r := PassPeerFrontier(e, j);
            && r.streams == e.streams && r.limits == e.limits && r.closed == e.closed
            && HandOverViolation(r, j) == HandOverViolation(e, j)
  {
    hide DirOf, Counter, Steady;
    if DirOf(j).Uni? {
      assert PassPeerFrontier(e, j) == e.(nextPeerUni := Counter(j) + 1);
    } else {
      assert PassPeerFrontier(e, j) == e.(nextPeerBi := Counter(j) + 1);
    }
  }

  lemma HandedOpen(e: Endpoint, j: StreamId)
    ensures HandOver(e, j).closed == e.closed
  {
    hide DirOf, Steady, HandOver;
    HandOverFields(e, j);
  }

  lemma QueuedOpen(e: Endpoint, j: StreamId)
    ensures Enqueue(e, InitialCredit(e, j)).closed == e.closed
  {
  }

  /** A peer that no error has closed has queued no closing frame. */
  lemma NoClosingYet(la: Limits, lb: Limits, moves: seq<Move>, flipped: bool)
    requires Valid(la) && Valid(lb)
    requires var s := Here(la, lb, moves, flipped); s.b.error.None? && s.seenByA < |s.b.sent|
    ensures var s := Here(la, lb, moves, flipped); !s.b.sent[s.seenByA].ConnectionClose?
  {
    hide Inv, Valid, Play, Facing, Modest;
    var s := Here(la, lb, moves, flipped);
    OtherSide(la, lb, moves, flipped);
    PlayModest(la, lb, moves, !flipped);
    NoClosing(s.b, s.b.sent[s.seenByA]);
  }

  lemma OpenPeerFaultless(la: Limits, lb: Limits, moves: seq<Move>, flipped: bool)
    requires Valid(la) && Valid(lb) && !Here(la, lb, moves, flipped).b.closed
    ensures Here(la, lb, moves, flipped).b.error.None?
  {
    hide Inv, Valid, Play, Facing;
    OtherSide(la, lb, moves, flipped);
    Reached(la, lb, moves, !flipped);
    CodesOf(Here(la, lb, moves, !flipped));
  }

  /** Between native sessions a frame in transit ends a session exactly if it is a closing frame, which an error of the
      peer has queued, an open that finds no slot, or data that is too large or finds its queue full. */
  lemma ClosesIff(la: Limits, lb: Limits, moves: seq<Move>, flipped: bool)
    requires Valid(la) && Valid(lb) && AllWait(moves)
    requires var s := Here(la, lb, moves, flipped); !s.a.closed && s.seenByA < |s.b.sent|
    ensures var s := Here(la, lb, moves, flipped);
            var f := s.b.sent[s.seenByA];
            && (DeliverA(s, true, true).a.closed <==> f.ConnectionClose? || Slotless(s.a, f) || Unfit(s))
            && (f.ConnectionClose? ==> s.b.error.Some? && DeliverA(s, true, true).a.error == s.a.error)
  {
    hide Inv, Valid, Play, Facing, AllWait, Step, Overflows;
    var s := Here(la, lb, moves, flipped);
    var f := s.b.sent[s.seenByA];
    if s.b.error.None? { NoClosingYet(la, lb, moves, flipped); }
    if f.ConnectionClose? {
      Reactions.CloseIsTerminal(s.a, f.code, f.reason, true, true);
    } else if Opener(f) {
      Reached(la, lb, moves, flipped);
      OpenCloses(s);
    } else if Unfit(s) {
      UnfitCloses(la, lb, moves, flipped);
    } else {
      StaysOpen(la, lb, moves, flipped);
    }
  }

  /** What a has after it handled the frames fs: all but the books about streams that they end or stop. */
  predicate HandledAll(e: Endpoint, r: Endpoint, fs: seq<Frame>, replies: seq<Frame>, id: StreamId) {
    && r.outbound == e.outbound + replies && AllMild(replies)
    && (LiveIn(e, id) && (forall f :: f in fs ==> !Ends(f, id)) ==> LiveIn(r, id))
    && (id in e.sendFlows && (forall f :: f in fs ==> !Stops(f, id)) ==> SameFlow(e, r, id))
  }

  lemma HandledNone(e: Endpoint, id: StreamId)
    ensures HandledAll(e, e, [], [], id)
  {
    assert e.outbound + [] == e.outbound;
  }

  lemma HandledMore(e: Endpoint, mid: Endpoint, r: Endpoint, f: Frame, fs: seq<Frame>, replies: seq<Frame>,
      id: StreamId)
    requires !e.closed && mid == HandleFrame(e, f, true, true) && !mid.closed && HandledAll(mid, r, fs, replies, id)
    ensures HandledAll(e, r, [f] + fs, Reply(e, f) + replies, id)
  {
    hide HandleFrame, Reply, LiveIn, Ends, Stops, Mild;
    Replies(e, f);
    if LiveIn(e, id) && !Ends(f, id) { StreamKept(e, f, id); }
    if id in e.sendFlows && !Stops(f, id) { FlowKept(e, f, id); }
    assert e.outbound + Reply(e, f) + replies == e.outbound + (Reply(e, f) + replies);
    assert f in [f] + fs;
  }

  /** Reading first changes nothing that matters here. */
  lemma HandledAfter(e: Endpoint, mid: Endpoint, r: Endpoint, fs: seq<Frame>, replies: seq<Frame>, id: StreamId)
    requires Undisturbed(e, mid) && HandledAll(mid, r, fs, replies, id)
    ensures HandledAll(e, r, fs, replies, id)
  {
    hide LiveIn, Ends, Stops, AllMild, MildlySent;
  }

  /** Frames sent since, all of them mild. */
  predicate MildlySent(e: Endpoint, r: Endpoint) {
    e.sent <= r.sent && AllMild(r.sent[|e.sent|..])
  }

  lemma MildlyOn(e: Endpoint, mid: Endpoint, r: Endpoint)
    requires MildlySent(e, mid) && MildlySent(mid, r)
    ensures MildlySent(e, r)
  {
    hide Mild;
    assert r.sent[|e.sent|..] == mid.sent[|e.sent|..] + r.sent[|mid.sent|..];
  }

  lemma MildlySame(e: Endpoint, r: Endpoint)
    requires r.sent == e.sent
    ensures MildlySent(e, r)
  {
  }

  /** If the next frame is data for a reader, its queue is empty. */
  predicate Prepared(s: System) {
    s.seenByA < |s.b.sent| && s.b.sent[s.seenByA].Stream? && LiveIn(s.a, s.b.sent[s.seenByA].id) ==>
      s.a.readers[s.b.sent[s.seenByA].id].queue == []
  }

  /** The application reads the stream that the next frame is about. */
  lemma Prepares(la: Limits, lb: Limits, moves: seq<Move>, flipped: bool) returns (more: seq<Move>)
    requires Valid(la) && Valid(lb)
    requires var s := Here(la, lb, moves, flipped); !s.a.closed && s.seenByA < |s.b.sent|
    ensures AllPassive(more)
    ensures var s, s' := Here(la, lb, moves, flipped), Here(la, lb, moves + more, flipped);
            s' == s.(a := s'.a) && Undisturbed(s.a, s'.a) && Prepared(s')
  {
    hide Valid, Play, Facing, Undisturbed, Passive;
    var s := Here(la, lb, moves, flipped);
    var f := s.b.sent[s.seenByA];
    if f.Stream? && LiveIn(s.a, f.id) {
      more := ReadsAll(la, lb, moves, flipped, f.id);
    } else {
      more := [];
      assert moves + [] == moves;
      UndisturbedYet(s.a);
    }
  }

  /** a handles what is in transit to it and reads before each data frame, up to a frame that ends its session. */
  lemma {:induction false} Receives(la: Limits, lb: Limits, moves: seq<Move>, flipped: bool, id: StreamId)
      returns (more: seq<Move>, replies: seq<Frame>)
    requires Valid(la) && Valid(lb)
    ensures AllPassive(more)
    ensures var s, s' := Here(la, lb, moves, flipped), Here(la, lb, moves + more, flipped);
            && s'.b == s.b && s'.seenByB == s.seenByB && MildlySent(s.a, s'.a) && s.seenByA <= |s.b.sent|
            && (s.a.closed ==> s'.a.closed)
            && (!s'.a.closed ==> s'.seenByA == |s.b.sent| && HandledAll(s.a, s'.a, s.b.sent[s.seenByA..], replies, id))
            && (Smooth(la, lb, moves, flipped) ==> !s'.a.closed)
    decreases InTransit(Here(la, lb, moves, flipped))
  {
    hide Valid, Play, Facing, Smooth, HandledAll, Step, Inv, Reply, Undisturbed, MildlySent, Passive, Prepared;
    var s := Here(la, lb, moves, flipped);
    Reached(la, lb, moves, flipped);
    ShapeOf(s);
    more, replies := [], [];
    MildlySame(s.a, s.a);
    if s.a.closed || s.seenByA == |s.b.sent| {
      assert moves + [] == moves;
      if s.a.closed {
        SmoothIsOpen(la, lb, moves, flipped);
      } else {
        assert s.b.sent[s.seenByA..] == [];
        HandledNone(s.a, id);
      }
      return;
    }
    var reading := Prepares(la, lb, moves, flipped);
    var s1 := Here(la, lb, moves + reading, flipped);
    UndisturbedMeans(s.a, s1.a);
    var f, m := s.b.sent[s.seenByA], Deliver(!flipped, true, true);
    var next := moves + reading + [m];
    DeliverHere(la, lb, moves + reading, flipped);
    var mid := Here(la, lb, next, flipped);
    StepForm(s1.a, Receive(f, true, true));
    HandlingSendsNothing(s1.a, f);
    var rest, later := Receives(la, lb, next, flipped, id);
    more, replies := reading + [m] + rest, Reply(s1.a, f) + later;
    assert next + rest == moves + more;
    PassiveParts(reading, m, rest);
    var s' := Here(la, lb, moves + more, flipped);
    MildlySame(s1.a, mid.a);
    MildlyOn(s.a, s1.a, mid.a);
    MildlyOn(s.a, mid.a, s'.a);
    assert s.b.sent[s.seenByA..] == [f] + s.b.sent[s.seenByA + 1..];
    if !s'.a.closed {
      HandledMore(s1.a, mid.a, s'.a, f, s.b.sent[s.seenByA + 1..], later, id);
      HandledAfter(s.a, s1.a, s'.a, s.b.sent[s.seenByA..], replies, id);
    }
    if Smooth(la, lb, moves, flipped) {
      SmoothRead(la, lb, moves, reading, flipped);
      SmoothOn(la, lb, moves + reading, flipped);
    }
  }

  lemma PassiveParts(reading: seq<Move>, m: Move, rest: seq<Move>)
    requires AllPassive(reading) && m.Deliver? && m.queued && AllPassive(rest)
    ensures AllPassive(reading + [m] + rest)
  {
  }

  lemma SmoothIsOpen(la: Limits, lb: Limits, moves: seq<Move>, flipped: bool)
    ensures Smooth(la, lb, moves, flipped) ==> !Here(la, lb, moves, flipped).a.closed
  {
    hide Here, Takes;
  }

  lemma PassiveWaits(moves: seq<Move>, more: seq<Move>)
    requires AllWait(moves) && AllPassive(more)
    ensures AllWait(moves + more)
  {
  }

  lemma SmoothRead(la: Limits, lb: Limits, moves: seq<Move>, reading: seq<Move>, flipped: bool)
    requires Smooth(la, lb, moves, flipped) && AllPassive(reading)
    requires var s, s' := Here(la, lb, moves, flipped), Here(la, lb, moves + reading, flipped);
             s' == s.(a := s'.a) && !s'.a.closed
    ensures Smooth(la, lb, moves + reading, flipped)
  {
    hide Here, Takes, Opener, AllWait, AllPassive;
    PassiveWaits(moves, reading);
  }

  /** Data within what a takes is fit for a reader that has read. */
  lemma PreparedFits(la: Limits, lb: Limits, moves: seq<Move>, flipped: bool)
    requires Valid(la) && Valid(lb) && Takes(Ours(la, lb, flipped), Theirs(la, lb, flipped))
    requires !Here(la, lb, moves, flipped).a.closed && Prepared(Here(la, lb, moves, flipped))
    ensures !Unfit(Here(la, lb, moves, flipped))
  {
    hide Inv, Play, Facing, MaxChunk, StreamViolation;
    var s := Here(la, lb, moves, flipped);
    Reached(la, lb, moves, flipped);
    if s.seenByA < |s.b.sent| && s.b.sent[s.seenByA].Stream? {
      DataInTransit(s);
      NotFull(s.a, s.b.sent[s.seenByA].id, s.b.sent[s.seenByA].data);
    }
  }

  lemma NotFull(e: Endpoint, j: StreamId, data: seq<Byte>)
    requires e.limits.recvEventQueueLen > 0 && (LiveIn(e, j) ==> e.readers[j].queue == [])
    ensures StreamViolation(e, j, data) != Some((3, "receive queue full"))
  {
  }

  lemma SmoothOn(la: Limits, lb: Limits, moves: seq<Move>, flipped: bool)
    requires Valid(la) && Valid(lb) && Smooth(la, lb, moves, flipped) && Prepared(Here(la, lb, moves, flipped))
    requires var s := Here(la, lb, moves, flipped); s.seenByA < |s.b.sent|
    ensures Smooth(la, lb, moves + [Deliver(!flipped, true, true)], flipped)
  {
    hide Here, Takes, Valid, Step, Opener, AllWait, Unfit, Prepared;
    var s, m := Here(la, lb, moves, flipped), Deliver(!flipped, true, true);
    assert s.b.sent[s.seenByA..][0] == s.b.sent[s.seenByA];
    OpenPeerFaultless(la, lb, moves, flipped);
    NoClosingYet(la, lb, moves, flipped);
    PreparedFits(la, lb, moves, flipped);
    StaysOpen(la, lb, moves, flipped);
    DeliveryPassive(m);
    PassiveWaits(moves, [m]);
    DeliverHere(la, lb, moves, flipped);
  }

  lemma DeliveryPassive(m: Move)
    requires m.Deliver? && m.queued
    ensures AllPassive([m])
  {
  }

  lemma HandlingSendsNothing(e: Endpoint, f: Frame)
    ensures HandleFrame(e, f, true, true).sent == e.sent
  {
    hide HandleFrame;
  }

  // ---- Sending all that is queued ----

  function Sendings(flipped: bool, k: nat): (moves: seq<Move>) {
    seq(k, i => Act(!flipped, SendQueued))
  }

  lemma {:induction false} Sends(la: Limits, lb: Limits, moves: seq<Move>, flipped: bool) returns (k: nat)
    ensures Here(la, lb, moves + Sendings(flipped, k), flipped) == FlushA(Here(la, lb, moves, flipped))
    decreases |Here(la, lb, moves, flipped).a.outbound|
  {
    hide Play, Facing, Step, FlushA, Sendings, ActA;
    var s := Here(la, lb, moves, flipped);
    FlushOne(s);
    k := 0;
    NoSendings(moves, flipped);
    if s.a.outbound != [] {
      ActHere(la, lb, moves, flipped, SendQueued);
      OneSent(s);
      var k1 := Sends(la, lb, moves + [Act(!flipped, SendQueued)], flipped);
      k := k1 + 1;
      MoreSendings(moves, flipped, k1);
    }
  }

  lemma OneSent(s: System)
    requires s.a.outbound != []
    ensures |ActA(s, SendQueued).a.outbound| < |s.a.outbound|
  {
    hide Step, SameRole;
    StepForm(s.a, SendQueued);
  }

  lemma NoSendings(moves: seq<Move>, flipped: bool)
    ensures moves + Sendings(flipped, 0) == moves
  {
  }

  lemma MoreSendings(moves: seq<Move>, flipped: bool, k: nat)
    ensures moves + [Act(!flipped, SendQueued)] + Sendings(flipped, k) == moves + Sendings(flipped, k + 1)
  {
  }

  // ---- Reading ----

  /** Deliveries, steps of the writers and reads, of either side. */
  predicate Passive(m: Move) {
    match m
    case Deliver(_, queued, _) => queued
    case Act(_, action) => action.SendQueued? || action.SendCredit? || action.PopEvent? || action.Consume?
  }

  predicate AllPassive(moves: seq<Move>) {
    forall i :: 0 <= i < |moves| ==> Passive(moves[i])
  }

  /** What reading and sending credits leave alone. */
  ghost predicate Undisturbed(e: Endpoint, r: Endpoint) {
    && r.outbound == e.outbound && r.sendFlows == e.sendFlows && !r.closed
    && MildlySent(e, r) && forall k :: LiveIn(e, k) ==> LiveIn(r, k)
  }

  lemma UndisturbedOn(e: Endpoint, mid: Endpoint, r: Endpoint)
    requires Undisturbed(e, mid) && Undisturbed(mid, r)
    ensures Undisturbed(e, r)
  {
    hide MildlySent, LiveIn;
    MildlyOn(e, mid, r);
  }

  lemma UndisturbedYet(e: Endpoint)
    requires !e.closed
    ensures Undisturbed(e, e)
  {
  }

  lemma UndisturbedMeans(e: Endpoint, r: Endpoint)
    requires Undisturbed(e, r)
    ensures !r.closed && r.outbound == e.outbound && r.sendFlows == e.sendFlows && MildlySent(e, r)
    ensures forall k :: LiveIn(e, k) ==> LiveIn(r, k)
  {
    hide MildlySent, LiveIn;
  }

  lemma CreditSent(e: Endpoint, j: StreamId)
    requires j in e.pendingCredit && !e.closed
    ensures var r := Step(e, SendCredit(j));
            Undisturbed(e, r) && |r.pendingCredit| < |e.pendingCredit| && r.readers == e.readers
  {
    hide Step, SameRole;
    StepForm(e, SendCredit(j));
    assert (e.pendingCredit - {j}).Keys == e.pendingCredit.Keys - {j};
    assert |e.pendingCredit - {j}| == |(e.pendingCredit - {j}).Keys| && |e.pendingCredit| == |e.pendingCredit.Keys|;
  }

  lemma {:induction false} SendsCredits(la: Limits, lb: Limits, moves: seq<Move>, flipped: bool)
      returns (more: seq<Move>)
    requires !Here(la, lb, moves, flipped).a.closed
    ensures AllPassive(more)
    ensures var s, s' := Here(la, lb, moves, flipped), Here(la, lb, moves + more, flipped);
            && s' == s.(a := s'.a) && Undisturbed(s.a, s'.a) && s'.a.pendingCredit == map[]
            && s'.a.readers == s.a.readers
    decreases |Here(la, lb, moves, flipped).a.pendingCredit|
  {
    hide Play, Facing, Step, Undisturbed;
    var s := Here(la, lb, moves, flipped);
    more := [];
    assert moves + [] == moves;
    UndisturbedYet(s.a);
    if s.a.pendingCredit != map[] {
      var j :| j in s.a.pendingCredit;
      var m := Act(!flipped, SendCredit(j));
      ActHere(la, lb, moves, flipped, SendCredit(j));
      CreditSent(s.a, j);
      UndisturbedMeans(s.a, Step(s.a, SendCredit(j)));
      var rest := SendsCredits(la, lb, moves + [m], flipped);
      more := [m] + rest;
      assert moves + [m] + rest == moves + more;
      UndisturbedOn(s.a, Step(s.a, SendCredit(j)), Here(la, lb, moves + more, flipped).a);
    }
  }

  lemma Pops(e: Endpoint, id: StreamId)
    requires AllOk(e) && !e.closed && LiveIn(e, id) && e.readers[id].pending == [] && e.readers[id].queue != []
    ensures var r := Step(e, PopEvent(id));
            && Undisturbed(e, r) && r.pendingCredit == e.pendingCredit
            && id in r.readers && r.readers[id].queue == e.readers[id].queue[1..]
  {
    hide Step, AllOk, SameRole;
    LiveReader(e, id);
    StepForm(e, PopEvent(id));
  }

  /** With no credit pending there is a slot for one more, so reading ends nothing. */
  lemma TakesPending(e: Endpoint, id: StreamId)
    requires AllOk(e) && !e.closed && LiveIn(e, id) && e.readers[id].pending != [] && e.pendingCredit == map[]
    ensures var r := Step(e, Consume(id, |e.readers[id].pending|));
            && Undisturbed(e, r)
            && id in r.readers && r.readers[id].queue == e.readers[id].queue && r.readers[id].pending == []
  {
    hide Step, AllOk, SameRole, Target, SaturatingAdd;
    ValidOf(e);
    StepForm(e, Consume(id, |e.readers[id].pending|));
    assert Pruned(e) == map[];
  }

  /** The application reads all that has arrived. */
  lemma {:induction false} ReadsAll(la: Limits, lb: Limits, moves: seq<Move>, flipped: bool, id: StreamId)
      returns (more: seq<Move>)
    requires Valid(la) && Valid(lb)
    requires var s := Here(la, lb, moves, flipped); !s.a.closed && LiveIn(s.a, id)
    ensures AllPassive(more)
    ensures var s, s' := Here(la, lb, moves, flipped), Here(la, lb, moves + more, flipped);
            && s' == s.(a := s'.a) && Undisturbed(s.a, s'.a) && s'.a.pendingCredit == map[]
            && id in s'.a.readers && s'.a.readers[id].pending == [] && s'.a.readers[id].queue == []
    decreases var rd := Here(la, lb, moves, flipped).a.readers[id];
              2 * |rd.queue| + (if rd.pending == [] then 0 else 1)
  {
    hide Play, Facing, Step, Undisturbed, Valid, Inv, AllOk;
    var credits := SendsCredits(la, lb, moves, flipped);
    var s, s1 := Here(la, lb, moves, flipped), Here(la, lb, moves + credits, flipped);
    UndisturbedMeans(s.a, s1.a);
    more := credits;
    var rd := s1.a.readers[id];
    if rd.pending == [] && rd.queue == [] { return; }
    var a := if rd.pending != [] then Consume(id, |rd.pending|) else PopEvent(id);
    Reached(la, lb, moves + credits, flipped);
    OkHere(s1);
    if rd.pending != [] { TakesPending(s1.a, id); } else { Pops(s1.a, id); }
    var m := Act(!flipped, a);
    ActHere(la, lb, moves + credits, flipped, a);
    UndisturbedMeans(s1.a, Step(s1.a, a));
    var rest := ReadsAll(la, lb, moves + credits + [m], flipped, id);
    more := credits + [m] + rest;
    assert moves + credits + [m] + rest == moves + more;
    UndisturbedOn(s.a, s1.a, Step(s1.a, a));
    UndisturbedOn(s.a, Step(s1.a, a), Here(la, lb, moves + more, flipped).a);
  }

  lemma OkHere(s: System)
    requires Inv(s)
    ensures AllOk(s.a)
  {
    hide AllOk, WireOk;
    SideOf(s);
  }

  // ---- The whole exchange ----

  /** Both sessions are open, the stream is live at both ends, and no request to stop it was queued. */
  predicate Live(s: System, id: StreamId) {
    && !s.a.closed && !s.b.closed && LiveIn(s.a, id) && id in s.b.sendFlows && !s.b.sendFlows[id].finQueued
    && forall f :: f in Log(s.a) ==> !Stops(f, id)
  }

  /** Deliveries, steps of the writers, reads, and the end of a write to the stream that holds credit. */
  predicate Progress(m: Move, flipped: bool, id: StreamId) {
    Passive(m) || m == Act(flipped, Commit(id))
  }

  predicate AllProgress(moves: seq<Move>, flipped: bool, id: StreamId) {
    forall i :: 0 <= i < |moves| ==> Progress(moves[i], flipped, id)
  }

  lemma ProgressWaits(moves: seq<Move>, more: seq<Move>, flipped: bool, id: StreamId)
    requires AllWait(moves) && AllProgress(more, flipped, id)
    ensures AllWait(moves + more)
  {
  }

  lemma PassiveProgress(moves: seq<Move>, flipped: bool, id: StreamId)
    requires AllPassive(moves)
    ensures AllProgress(moves, flipped, id)
  {
    hide Passive;
  }

  lemma ProgressParts(flipped: bool, id: StreamId, side: bool, k: nat)
    ensures AllProgress(Sendings(side, k), flipped, id) && AllProgress([Act(flipped, Commit(id))], flipped, id)
  {
  }

  /** The write that holds credit queues its chunk. */
  lemma Committed(b: Endpoint, id: StreamId)
    requires id in b.sendFlows && !b.sendFlows[id].finQueued
    ensures var r := Step(b, Commit(id));
            && r.closed == b.closed && id in r.sendFlows && r.sendFlows[id] == b.sendFlows[id].(reserved := [])
            && r.sent == b.sent && b.outbound <= r.outbound && r.limits == b.limits
            && forall f :: f in r.outbound[|b.outbound|..] ==> f.Stream?
  {
    hide Step, Steady;
    StepForm(b, Commit(id));
    var flow := b.sendFlows[id];
    if flow.reserved != [] {
      assert DoCommit(b, id) == b.(sendFlows := b.sendFlows[id := flow.(reserved := [])],
                                   outbound := b.outbound + [Stream(id, flow.reserved, false)]);
    }
  }

  /** A flow that has not queued its FIN has ended nothing. */
  lemma NoEndYet(s: System, id: StreamId)
    requires Inv(s) && id in s.b.sendFlows && !s.b.sendFlows[id].finQueued
    ensures forall f :: f in Log(s.b) ==> !Ends(f, id)
  {
    hide Inv, StreamOk, AllOk, WireOk, Fold, Log;
    FlipInv(s);
    OkHere(Flip(s));
    StreamOf(s.b, id);
    NotBad(s.b, id);
    EndMeans(id, s.b.isServer, Log(s.b));
    StillLive(s.b, id);
  }

  lemma StillLive(e: Endpoint, id: StreamId)
    requires StreamOk(e, id) && id in e.sendFlows && !e.sendFlows[id].finQueued
    ensures Fold(id, e.isServer, Log(e)).ended.Live?
  {
    hide Fold, Known, Local, ReaderInv, StreamInv, CanSend, Ready;
  }

  /** First half: the sender publishes and sends what it has, and a handles it. */
  lemma SenderHalf(la: Limits, lb: Limits, moves: seq<Move>, flipped: bool, id: StreamId)
      returns (more: seq<Move>, replies: seq<Frame>)
    requires Valid(la) && Valid(lb) && Live(Here(la, lb, moves, flipped), id)
    ensures AllProgress(more, flipped, id)
    ensures var s, s' := Here(la, lb, moves, flipped), Here(la, lb, moves + more, flipped);
            && !s'.b.closed && s'.b.outbound == [] && s'.seenByB == s.seenByB && MildlySent(s.a, s'.a)
            && id in s'.b.sendFlows && s'.b.sendFlows[id] == s.b.sendFlows[id].(reserved := [])
            && (!s'.a.closed ==>
                  && s'.seenByA == |s'.b.sent| && LiveIn(s'.a, id)
                  && s'.a.outbound == s.a.outbound + replies && AllMild(replies))
            && (AllWait(moves) && Takes(Ours(la, lb, flipped), Theirs(la, lb, flipped)) && NoOpeners(ToA(s)) ==>
                  !s'.a.closed)
  {
    hide Valid, Play, Facing, Step, Inv, LiveIn, Sendings, Progress, Takes, AllWait, Opener, Ends, Stops, Passive;
    hide Log, Mild, MildlySent;
    var s := Here(la, lb, moves, flipped);
    ShapeHere(la, lb, moves, flipped);
    var m1 := [Act(flipped, Commit(id))];
    OtherSide(la, lb, moves, flipped);
    ActHere(la, lb, moves, !flipped, Commit(id));
    OtherSide(la, lb, moves + m1, flipped);
    Committed(s.b, id);
    var k := Sends(la, lb, moves + m1, !flipped);
    var m2 := m1 + Sendings(!flipped, k);
    assert moves + m1 + Sendings(!flipped, k) == moves + m2;
    OtherSide(la, lb, moves + m2, flipped);
    var s2 := Here(la, lb, moves + m2, flipped);
    assert s2 == s.(b := Flushed(Step(s.b, Commit(id))));
    var m3;
    m3, replies := Receives(la, lb, moves + m2, flipped, id);
    more := m2 + m3;
    assert moves + m2 + m3 == moves + more;
    ProgressParts(flipped, id, !flipped, k);
    PassiveProgress(m3, flipped, id);
    Reached(la, lb, moves + m2, flipped);
    NoEndYet(s2, id);
    InLog(s2);
    if AllWait(moves) && Takes(Ours(la, lb, flipped), Theirs(la, lb, flipped)) && NoOpeners(ToA(s)) {
      ProgressWaits(moves, m2, flipped, id);
      NoNewOpeners(s, Step(s.b, Commit(id)));
    }
  }

  lemma InLog(s: System)
    ensures s.seenByA <= |s.b.sent| ==> forall f :: f in s.b.sent[s.seenByA..] ==> f in Log(s.b)
  {
  }

  lemma NoNewOpeners(s: System, b: Endpoint)
    requires NoOpeners(ToA(s)) && s.seenByA <= |s.b.sent| && b.sent == s.b.sent && s.b.outbound <= b.outbound
    requires forall f :: f in b.outbound[|s.b.outbound|..] ==> f.Stream?
    ensures NoOpeners(Flushed(b).sent[s.seenByA..])
  {
    var fs := Flushed(b).sent[s.seenByA..];
    assert fs == ToA(s) + b.outbound[|s.b.outbound|..];
  }

  /** Second half: the application reads all of it, and its credits and replies reach the sender. */
  lemma ReaderHalf(la: Limits, lb: Limits, moves: seq<Move>, flipped: bool, id: StreamId)
      returns (more: seq<Move>, replies: seq<Frame>)
    requires Valid(la) && Valid(lb) && Live(Here(la, lb, moves, flipped), id)
    ensures AllProgress(more, flipped, id)
    ensures var s, s' := Here(la, lb, moves, flipped), Here(la, lb, moves + more, flipped);
            && !s'.a.closed && MildlySent(s.b, s'.b) && s'.seenByA == s.seenByA
            && LiveIn(s'.a, id) && s'.a.readers[id].pending == [] && s'.a.readers[id].queue == []
            && s'.a.pendingCredit == map[] && s'.a.outbound == []
            && (!s'.b.closed ==>
                  && s'.seenByB == |s'.a.sent| && SameFlow(s.b, s'.b, id)
                  && s'.b.outbound == s.b.outbound + replies && AllMild(replies))
            && (AllWait(moves) && Takes(Theirs(la, lb, flipped), Ours(la, lb, flipped)) && NoOpeners(ToA(Flip(s))) ==>
                  !s'.b.closed)
  {
    hide Valid, Play, Facing, Step, Inv, Sendings, Progress, Takes, AllWait, Opener, Stops, Log, Mild, Passive;
    hide Undisturbed;
    var s := Here(la, lb, moves, flipped);
    var m1 := ReadsAll(la, lb, moves, flipped, id);
    var s1 := Here(la, lb, moves + m1, flipped);
    UndisturbedMeans(s.a, s1.a);
    var k := Sends(la, lb, moves + m1, flipped);
    var m2 := m1 + Sendings(flipped, k);
    assert moves + m1 + Sendings(flipped, k) == moves + m2;
    var s2 := Here(la, lb, moves + m2, flipped);
    OtherSide(la, lb, moves + m2, flipped);
    var m3;
    m3, replies := Receives(la, lb, moves + m2, !flipped, id);
    more := m2 + m3;
    assert moves + m2 + m3 == moves + more;
    OtherSide(la, lb, moves + more, flipped);
    ProgressParts(flipped, id, flipped, k);
    PassiveProgress(m1, flipped, id);
    PassiveProgress(m3, flipped, id);
    ShapeHere(la, lb, moves, flipped);
    OnlyMildNew(s, s1.a);
    NoStopsYet(s, s2, id);
    if AllWait(moves) && Takes(Theirs(la, lb, flipped), Ours(la, lb, flipped)) && NoOpeners(ToA(Flip(s))) {
      ProgressWaits(moves, m2, flipped, id);
      MildIsNoOpener(s, s2);
    }
  }

  lemma ShapeHere(la: Limits, lb: Limits, moves: seq<Move>, flipped: bool)
    requires Valid(la) && Valid(lb)
    ensures var s := Here(la, lb, moves, flipped); s.seenByA <= |s.b.sent| && s.seenByB <= |s.a.sent|
  {
    hide Valid, Play, Facing, Inv;
    Reached(la, lb, moves, flipped);
    ShapeOf(Here(la, lb, moves, flipped));
  }

  /** After reading, what is on its way to the sender was so before, or is mild. */
  lemma OnlyMildNew(s: System, a: Endpoint)
    requires s.seenByB <= |s.a.sent| && s.a.sent <= a.sent && AllMild(a.sent[|s.a.sent|..])
             && a.outbound == s.a.outbound
    ensures forall f :: f in Flushed(a).sent[s.seenByB..] ==> f in ToA(Flip(s)) || Mild(f)
  {
    hide Mild;
    assert Flushed(a).sent[s.seenByB..] == s.a.sent[s.seenByB..] + a.sent[|s.a.sent|..] + a.outbound;
  }

  lemma NoStopsYet(s: System, s': System, id: StreamId)
    requires Live(s, id) && s'.seenByB == s.seenByB <= |s'.a.sent|
    requires forall f :: f in s'.a.sent[s.seenByB..] ==> f in ToA(Flip(s)) || Mild(f)
    ensures forall f :: f in s'.a.sent[s.seenByB..] ==> !Stops(f, id)
  {
    forall f | f in s'.a.sent[s.seenByB..] ensures !Stops(f, id) {
      if f in ToA(Flip(s)) { assert f in Log(s.a); }
    }
  }

  lemma MildIsNoOpener(s: System, s': System)
    requires s'.seenByB == s.seenByB <= |s'.a.sent| && NoOpeners(ToA(Flip(s)))
    requires forall f :: f in s'.a.sent[s.seenByB..] ==> f in ToA(Flip(s)) || Mild(f)
    ensures NoOpeners(s'.a.sent[s.seenByB..])
  {
  }

  lemma {:induction false} MildCarriesNothing(id: StreamId, fs: seq<Frame>)
    requires AllMild(fs)
    ensures Carried(id, fs) == []
  {
    if fs != [] {
      MildCarriesNothing(id, fs[..|fs| - 1]);
      assert Mild(fs[|fs| - 1]);
    }
  }

  /** Native sessions that take each other's data frames, and no open on its way. */
  predicate Untroubled(la: Limits, lb: Limits, moves: seq<Move>) {
    var s := Play(Start(la, lb), moves);
    AllWait(moves) && Takes(la, lb) && Takes(lb, la) && NoOpeners(ToA(s)) && NoOpeners(ToA(Flip(s)))
  }

  lemma UntroubledBoth(la: Limits, lb: Limits, moves: seq<Move>, flipped: bool)
    requires Untroubled(la, lb, moves)
    ensures var s := Here(la, lb, moves, flipped);
            && AllWait(moves) && NoOpeners(ToA(s)) && NoOpeners(ToA(Flip(s)))
            && Takes(Ours(la, lb, flipped), Theirs(la, lb, flipped))
            && Takes(Theirs(la, lb, flipped), Ours(la, lb, flipped))
  {
    hide Play, AllWait, NoOpeners, Takes;
    var s := Play(Start(la, lb), moves);
    assert Flip(Flip(s)) == s;
  }

  lemma StillLiveThen(s: System, s': System, replies: seq<Frame>, id: StreamId)
    requires Live(s, id) && !s'.a.closed && !s'.b.closed && LiveIn(s'.a, id) && MildlySent(s.a, s'.a)
    requires s'.a.outbound == s.a.outbound + replies && AllMild(replies)
    requires id in s'.b.sendFlows && s'.b.sendFlows[id] == s.b.sendFlows[id].(reserved := [])
    ensures Live(s', id)
  {
    hide LiveIn;
    var since := s'.a.sent[|s.a.sent|..];
    assert s'.a.sent == s.a.sent + since;
    forall f | f in Log(s'.a) ensures !Stops(f, id) {
      assert f in s.a.sent || f in since || f in s.a.outbound || f in replies;
    }
  }

  /** Progress: from every reachable state in which both sessions are open and the stream is live, some continuation of
      deliveries, steps of the writers and reads drains the stream, unless a session ends on the way. Between native
      sessions that take each other's data frames, none does while no open is on its way. */
  lemma Drains(la: Limits, lb: Limits, moves: seq<Move>, flipped: bool, id: StreamId) returns (more: seq<Move>)
    requires Valid(la) && Valid(lb) && Live(Here(la, lb, moves, flipped), id)
    ensures AllProgress(more, flipped, id)
    ensures var s, s' := Here(la, lb, moves, flipped), Here(la, lb, moves + more, flipped);
            && (s'.a.closed || s'.b.closed
                || (Drained(s', id) && s'.b.sendFlows[id].sentData == s.b.sendFlows[id].sentData))
            && (Untroubled(la, lb, moves) ==> !s'.a.closed && !s'.b.closed)
  {
    hide Valid, Play, Facing, LiveIn, Progress, Takes, AllWait, NoOpeners, AllMild, Carried, Announced, Untroubled;
    hide Live, MildlySent;
    var s := Here(la, lb, moves, flipped);
    var m1, r1 := SenderHalf(la, lb, moves, flipped, id);
    var s1 := Here(la, lb, moves + m1, flipped);
    more := m1;
    if Untroubled(la, lb, moves) { UntroubledBoth(la, lb, moves, flipped); }
    if s1.a.closed { return; }
    StillLiveThen(s, s1, r1, id);
    var m2, r2 := ReaderHalf(la, lb, moves + m1, flipped, id);
    var s2 := Here(la, lb, moves + m1 + m2, flipped);
    more := m1 + m2;
    assert moves + m1 + m2 == moves + more;
    if Untroubled(la, lb, moves) {
      ProgressWaits(moves, m1, flipped, id);
      ShapeHere(la, lb, moves, flipped);
      StillNoOpeners(s, s1, r1);
    }
    if !s2.b.closed { DrainedNow(s1.b, s2, r2, id); }
  }

  lemma StillNoOpeners(s: System, s': System, replies: seq<Frame>)
    requires NoOpeners(ToA(Flip(s))) && MildlySent(s.a, s'.a) && s'.seenByB == s.seenByB <= |s.a.sent|
    requires s'.a.outbound == s.a.outbound + replies && AllMild(replies)
    ensures NoOpeners(ToA(Flip(s')))
  {
    var since := s'.a.sent[|s.a.sent|..];
    assert s'.a.sent[s.seenByB..] == s.a.sent[s.seenByB..] + since;
    forall f | f in ToA(Flip(s')) ensures !Opener(f) {
      assert f in ToA(Flip(s)) || f in since || f in replies;
    }
  }

  /** Of what the sender sent and queued since, nothing is data. */
  lemma DrainedNow(before: Endpoint, s: System, replies: seq<Frame>, id: StreamId)
    requires LiveIn(s.a, id) && s.a.readers[id].pending == [] && s.a.readers[id].queue == []
    requires s.a.pendingCredit == map[] && s.a.outbound == [] && s.seenByB == |s.a.sent|
    requires id in s.b.sendFlows && s.b.sendFlows[id].reserved == [] && MildlySent(before, s.b)
    requires s.seenByA == |before.sent| && s.b.outbound == [] + replies && AllMild(replies)
    ensures Drained(s, id)
  {
    var since := s.b.sent[|before.sent|..];
    assert ToA(s) == since + replies && ToA(Flip(s)) == [];
    assert AllMild(since + replies) by { hide Mild; }
    MildCarriesNothing(id, since + replies);
  }

  /** And so its sender has credit: between such sessions no live stream is ever stuck, up to the end of the varint
      range. */
  lemma CreditComes(la: Limits, lb: Limits, moves: seq<Move>, flipped: bool, id: StreamId) returns (more: seq<Move>)
    requires Valid(la) && Valid(lb) && Live(Here(la, lb, moves, flipped), id) && Untroubled(la, lb, moves)
    requires Here(la, lb, moves, flipped).b.sendFlows[id].sentData + Ours(la, lb, flipped).windowUpdateThreshold <= MAX
    ensures AllProgress(more, flipped, id)
    ensures var s' := Here(la, lb, moves + more, flipped);
            && !s'.a.closed && !s'.b.closed && Drained(s', id)
            && s'.b.sendFlows[id].sentData < s'.b.sendFlows[id].maxData
  {
    hide Valid, Play, Facing, Untroubled, Live, Refused, Carried, Announced, Progress, AllWait, Inv;
    more := Drains(la, lb, moves, flipped, id);
    var s' := Here(la, lb, moves + more, flipped);
    UntroubledBoth(la, lb, moves, flipped);
    ProgressWaits(moves, more, flipped, id);
    WaitsMine(moves + more, flipped);
    NativeNeverRefuses(la, lb, moves + more, flipped, id);
    Reached(la, lb, moves + more, flipped);
    ConsumedIsSent(s', id);
    NoCreditDeadlock(la, lb, moves + more, flipped, id);
  }

  lemma WaitsMine(moves: seq<Move>, flipped: bool)
    requires AllWait(moves)
    ensures forall i :: 0 <= i < |moves| && Mine(moves[i], flipped) ==> Waits(moves[i])
  {
    hide Waits, Mine;
  }

  /** Of a drained stream, everything sent has been consumed. */
  lemma ConsumedIsSent(s: System, id: StreamId)
    requires Inv(s) && Drained(s, id)
    ensures s.a.readers[id].consumed == s.b.sendFlows[id].sentData
  {
    hide Inv, Carried, Announced;
    SafeHere(s, id);
    DrainedHere(s, id);
  }
}
