/** The closing frames that honest endpoints queue. Of the reasons a session can give, only a few remain. */
module HonestClosings {
  import opened VarInts
  import opened Frames
  import opened SessionLimits
  import opened Endpoints
  import opened Views
  import opened EndpointInvariant
  import opened EndpointTheorems
  import opened Links
  import opened TwoParty
  import opened LogNews

  /** Without a lack of send slots the longest reason is that of data on a stream given up halfway through its open. */
  const UNKNOWN_STREAM: string := "Stream data on unknown stream"

  function HonestReason(lim: Limits): (n: nat) {
    if lim.maxOpenStreams < 3 * IDS then MAX_REASON else |UNKNOWN_STREAM|
  }

  /** The length of the longest closing frame between honest endpoints. */
  function LongestHonest(lim: Limits): (n: nat) {
    3 + HonestReason(lim)
  }

  predicate ModestFrame(lim: Limits, f: Frame) {
    f.ConnectionClose? ==> |f.reason| <= HonestReason(lim)
  }

  /** The closing frames of an endpoint are no longer than that, and it queues none unless an error closes it. */
  predicate Modest(e: Endpoint) {
    forall f :: f in Log(e) ==> ModestFrame(e.limits, f) && (f.ConnectionClose? ==> e.error.Some?)
  }

  lemma NoClosing(e: Endpoint, f: Frame)
    requires Modest(e) && e.error.None? && f in e.sent
    ensures !f.ConnectionClose?
  {
    assert f in Log(e);
  }

  /** What an endpoint does by itself closes nothing. */
  lemma ModestAct(e: Endpoint, a: Action)
    requires Modest(e) && !Inbound(a)
    ensures Modest(Step(e, a))
  {
    hide Step, Log, ModestFrame;
    forall f | f in Log(Step(e, a)) ensures ModestFrame(e.limits, f) && (f.ConnectionClose? ==> e.error.Some?) {
      if f.ConnectionClose? { StepNews(e, a, f); } else { OtherIsModest(e.limits, f); }
    }
  }

  lemma OtherIsModest(lim: Limits, f: Frame)
    requires !f.ConnectionClose?
    ensures ModestFrame(lim, f)
  {
  }

  lemma SameModest(e: Endpoint, r: Endpoint)
    requires Modest(e) && r.limits == e.limits && r.sent == e.sent && r.outbound == e.outbound
    requires e.error.Some? ==> r.error.Some?
    ensures Modest(r)
  {
  }

  lemma QueueModest(e: Endpoint, r: Endpoint, f: Frame)
    requires Modest(e) && r.limits == e.limits && r.sent == e.sent && r.outbound == e.outbound + [f]
    requires ModestFrame(e.limits, f) && (e.error.Some? || f.ConnectionClose? ==> r.error.Some?)
    ensures Modest(r)
  {
    hide ModestFrame;
  }

  lemma ErrorModest(e: Endpoint, code: nat, reason: string, room: bool)
    requires Modest(e) && |reason| <= |UNKNOWN_STREAM|
    ensures Modest(ProtocolError(e, code, reason, room))
  {
    hide Modest;
    if room {
      QueueModest(e, ProtocolError(e, code, reason, room), ConnectionClose(code, Ascii(reason)));
    } else {
      SameModest(e, ProtocolError(e, code, reason, room));
    }
  }

  /** With slots to spare an open is turned down for want of a receive slot or of room in the accept queue. */
  lemma OpenModest(e: Endpoint, j: StreamId, dir: Dir, queued: bool, room: bool)
    requires Modest(e) && AllOk(e) && WireOk(e) && j <= MAX && e.limits.maxOpenStreams >= 3 * IDS
    requires OpenViolation(e, j, dir).None? && j !in e.streams
    ensures Modest(ReceiveOpen(e, j, dir, queued, room))
  {
    hide Modest, AllOk, WireOk, OpenViolation, HandOverViolation, Admit, DirOf, Counter;
    HandOverReason(e, j, dir);
    SameModest(e, PassPeerFrontier(e, j));
    AdmitModest(PassPeerFrontier(e, j), j, queued, room);
  }

  lemma AdmitModest(e: Endpoint, j: StreamId, queued: bool, room: bool)
    requires Modest(e) && j !in e.streams
    requires HandOverViolation(e, j).Some? ==> |HandOverViolation(e, j).value| <= SHORT_REASON
    ensures Modest(Admit(e, j, queued, room))
  {
    hide Modest, HandOverViolation, HandOver, ProtocolError;
    var e1 := if queued then Enqueue(e, InitialCredit(e, j)) else e;
    if queued { QueueModest(e, e1, InitialCredit(e, j)); }
    ErrorModest(e, 3, "too many open streams", room);
    if HandOverViolation(e, j).Some? {
      ShortRefusal(e, j);
      ErrorModest(e1, 3, HandOverViolation(e, j).value, room);
    } else {
      HandOverQuiet(e1, j);
      SameModest(e1, HandOver(e1, j));
    }
  }

  lemma ShortRefusal(e: Endpoint, j: StreamId)
    requires HandOverViolation(e, j).Some? && |HandOverViolation(e, j).value| <= SHORT_REASON
    ensures |HandOverViolation(e, j).value| <= |UNKNOWN_STREAM|
  {
    hide DirOf;
  }

  lemma DataModest(e: Endpoint, j: StreamId, data: seq<Byte>, fin: bool, room: bool)
    requires Modest(e)
    requires StreamViolation(e, j, data) in
               {None, Some((2, UNKNOWN_STREAM)), Some((2, "stream data too large")), Some((3, "receive queue full"))}
    ensures Modest(ReceiveStream(e, j, data, fin, room))
  {
    hide Modest, StreamViolation, ProtocolError;
    match StreamViolation(e, j, data)
    case None => SameModest(e, ReceiveStream(e, j, data, fin, room));
    case Some(v) => ErrorModest(e, v.0, v.1, room);
  }

  lemma AnswerModest(e: Endpoint, j: StreamId, code: nat, queued: bool)
    requires Modest(e)
    ensures Modest(AnswerStop(e, j, code, queued))
  {
    hide Modest;
    var e1 := DoRemoveFlow(e, j);
    if queued {
      QueueModest(e, Enqueue(e1, ResetStream(j, code)), ResetStream(j, code));
    } else {
      SameModest(e, CloseAll(e1));
    }
  }

  /** Every frame of an honest peer, with slots to spare. */
  lemma DeliverShort(s: System, queued: bool, room: bool)
    requires Inv(s) && Modest(s.a) && !s.a.closed && s.seenByA < |s.b.sent| && s.a.limits.maxOpenStreams >= 3 * IDS
    ensures Modest(HandleFrame(s.a, s.b.sent[s.seenByA], queued, room))
  {
    hide Inv, Modest, ReceiveOpen, ReceiveStream, AnswerStop, ProtocolError, StreamViolation, IsRetiredDirection;
    hide OpenViolation, AllOk, WireOk;
    var e, f := s.a, s.b.sent[s.seenByA];
    SideOf(s);
    match f
    case OpenUni(j) =>
      NextOpenPlaced(s, j, Uni);
      OpenModest(e, j, Uni, queued, room);
    case OpenBi(j) =>
      NextOpenPlaced(s, j, Bi);
      OpenModest(e, j, Bi, queued, room);
    case Stream(j, data, fin) =>
      NextDataPlaced(s, j, data, fin);
      DataModest(e, j, data, fin, room);
    case ResetStream(j, code) =>
      NextTerminalPlaced(s, j);
      SameModest(e, RemoveRecv(e, j));
    case StopSending(j, code) =>
      NextTerminalPlaced(s, j);
      AnswerModest(e, j, code, queued);
    case MaxStreamData(j, max) => SameModest(e, HandleFrame(e, f, queued, room));
    case ConnectionClose(_, _) => SameModest(e, CloseAll(e));
  }

  lemma SideOf(s: System)
    requires Inv(s)
    ensures AllOk(s.a) && WireOk(s.a)
  {
    hide AllOk, WireOk, LinkOk, SeenView;
  }

  lemma NextOpenPlaced(s: System, j: StreamId, dir: Dir)
    requires Inv(s) && s.seenByA < |s.b.sent| && s.b.sent[s.seenByA] == if dir.Uni? then OpenUni(j) else OpenBi(j)
    ensures OpenViolation(s.a, j, dir).None? && j !in s.a.streams && j <= MAX
  {
    hide Inv, LinkOk, SeenView, OpenViolation, EndOf, SentView, Shaped;
    ShapeOf(s);
    NextFramePlaced(s, j);
    NextFrame(s, j);
    FrameEncodes(s.a.limits, s.b.sent[s.seenByA]);
    assert Header(s.b.sent[s.seenByA])[1] == j;
    LinkOf(s, j);
    OpenPlaced(s.a, j, dir, ByA(s, j), ByA(Flip(s), j));
  }

  lemma NextDataPlaced(s: System, j: StreamId, data: seq<Byte>, fin: bool)
    requires Inv(s) && s.seenByA < |s.b.sent| && !s.a.closed && s.b.sent[s.seenByA] == Stream(j, data, fin)
    ensures StreamViolation(s.a, j, data) in
              {None, Some((2, UNKNOWN_STREAM)), Some((2, "stream data too large")), Some((3, "receive queue full"))}
  {
    hide Inv, LinkOk, SeenView, StreamViolation, StreamOk, AllOk, WireOk, Half, Shaped, Placed;
    ShapeOf(s);
    SideOf(s);
    NextFramePlaced(s, j);
    NextFrame(s, j);
    LinkOf(s, j);
    StreamOf(s.a, j);
    if Half(s.a, j) {
      HalfPlaced(s.a, j, data, fin, ByA(s, j), ByA(Flip(s), j));
    } else {
      DataPlaced(s.a, j, data, fin, ByA(s, j), ByA(Flip(s), j));
    }
  }

  lemma NextTerminalPlaced(s: System, j: StreamId)
    requires Inv(s) && s.seenByA < |s.b.sent| && (s.b.sent[s.seenByA].ResetStream? || s.b.sent[s.seenByA].StopSending?)
    requires s.b.sent[s.seenByA].id == j
    ensures IsRetiredDirection(s.a, j, s.b.sent[s.seenByA].ResetStream?)
  {
    hide Inv, LinkOk, SeenView, StreamOk, AllOk, WireOk, Shaped, Placed, IsRetiredDirection;
    ShapeOf(s);
    SideOf(s);
    NextFramePlaced(s, j);
    LinkOf(s, j);
    StreamOf(s.a, j);
    TerminalPlaced(s.a, s.b.sent[s.seenByA], j, ByA(s, j), ByA(Flip(s), j));
  }

  lemma WireModest(e: Endpoint, a: Action)
    requires WireOk(Step(e, a)) && e.limits.maxOpenStreams < 3 * IDS && Modest(e) && e.error.None?
    ensures Modest(Step(e, a))
  {
    hide Step, Log, FrameOk;
    forall f | f in Log(Step(e, a))
      ensures ModestFrame(e.limits, f) && (f.ConnectionClose? ==> Step(e, a).error.Some?)
    {
      LoggedModest(Step(e, a), f);
      if f.ConnectionClose? { StepNews(e, a, f); }
    }
  }

  lemma LoggedModest(e: Endpoint, f: Frame)
    requires WireOk(e) && f in Log(e)
    ensures FrameOk(e.limits, f) && (e.limits.maxOpenStreams < 3 * IDS ==> ModestFrame(e.limits, f))
  {
  }

  lemma ModestDeliver(s: System, queued: bool, room: bool)
    requires Inv(s) && Modest(s.a)
    ensures Modest(DeliverA(s, queued, room).a)
  {
    hide Inv, Modest, HandleFrame;
    if s.a.closed || s.seenByA >= |s.b.sent| { return; }
    var s' := DeliverA(s, queued, room);
    StepForm(s.a, Receive(s.b.sent[s.seenByA], queued, room));
    if s.a.limits.maxOpenStreams < 3 * IDS {
      DeliverInv(s, queued, room);
      SideOf(s');
      CodesOf(s);
      WireModest(s.a, Receive(s.b.sent[s.seenByA], queued, room));
    } else {
      DeliverShort(s, queued, room);
    }
  }

  lemma FreshModest(server: bool, lim: Limits)
    ensures Modest(Fresh(server, lim))
  {
  }

  /** In every run, closing frames are no longer than that, and queued only by a side that an error has closed. */
  lemma {:induction false} PlayModest(la: Limits, lb: Limits, moves: seq<Move>, flipped: bool)
    requires Valid(la) && Valid(lb)
    ensures Modest(Facing(Play(Start(la, lb), moves), flipped).a)
  {
    hide Modest, Inv, Step, Valid;
    if moves == [] {
      FreshModest(flipped, Ours(la, lb, flipped));
    } else {
      var front, m := moves[..|moves| - 1], moves[|moves| - 1];
      PlayModest(la, lb, front, flipped);
      Reached(la, lb, front, flipped);
      var t := Facing(Play(Start(la, lb), front), flipped);
      hide Play;
      match m
      case Act(byA, action) => if !Inbound(action) { ModestAct(t.a, action); }
      case Deliver(toA, queued, room) => ModestDeliver(t, queued, room);
    }
  }
}
