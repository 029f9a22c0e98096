/** Two honest endpoints, each with limits of its own, joined by a FIFO channel each way, under every schedule of their
    actions. */
module TwoParty {
  import opened VarInts
  import opened Frames
  import opened SessionLimits
  import opened Endpoints
  import opened Views
  import opened EndpointInvariant
  import opened EndpointTheorems
  import opened Links

  /** `seenByA` counts the frames of b that a has processed; the rest of `b.sent` is in transit. */
  datatype System = System(a: Endpoint, b: Endpoint, seenByA: nat, seenByB: nat)

  /** One step of one side: an action of its own, or the next frame in transit to it. Deliveries with `queued`
      are those of a native session; a browser session also makes the others. */
  datatype Move = Act(byA: bool, action: Action) | Deliver(toA: bool, queued: bool, room: bool)

  function Flip(s: System): (r: System) {
    System(s.b, s.a, s.seenByB, s.seenByA)
  }

  function ActA(s: System, action: Action): (r: System) {
    if Inbound(action) then s else s.(a := Step(s.a, action))
  }

  /** A closed endpoint processes nothing more. */
  function DeliverA(s: System, queued: bool, room: bool): (r: System) {
    if s.a.closed || s.seenByA >= |s.b.sent| then s
    else s.(a := Step(s.a, Receive(s.b.sent[s.seenByA], queued, room)), seenByA := s.seenByA + 1)
  }

  function Move1(s: System, m: Move): (r: System) {
    match m
    case Act(byA, action) => if byA then ActA(s, action) else Flip(ActA(Flip(s), action))
    case Deliver(toA, queued, room) => if toA then DeliverA(s, queued, room) else Flip(DeliverA(Flip(s), queued, room))
  }

  /** Each side has its own limits; none are negotiated. */
  function Opening(server: bool, la: Limits, lb: Limits): (s: System) {
    System(Fresh(server, la), Fresh(!server, lb), 0, 0)
  }

  /** The client is a, the server b. */
  function Start(la: Limits, lb: Limits): (s: System) {
    Opening(false, la, lb)
  }

  function Play(s: System, moves: seq<Move>): (r: System)
    decreases |moves|
  {
    if moves == [] then s else Move1(Play(s, moves[..|moves| - 1]), moves[|moves| - 1])
  }

  lemma {:induction false} PlayConcat(s: System, m: seq<Move>, n: seq<Move>)
    ensures Play(s, m + n) == Play(Play(s, m), n)
  {
    hide Move1;
    if n == [] {
      assert m + n == m;
    } else {
      PlayConcat(s, m, n[..|n| - 1]);
      assert (m + n)[..|m + n| - 1] == m + n[..|n| - 1];
    }
  }

  lemma PlayOne(s: System, m: Move)
    ensures Play(s, [m]) == Move1(s, m)
  {
    hide Move1;
    assert [m][..0] == [];
  }

  lemma PlayTwo(s: System, m: Move, n: Move)
    ensures Play(s, [m, n]) == Move1(Move1(s, m), n)
  {
    hide Play, Move1;
    assert [m, n] == [m] + [n];
    PlayConcat(s, [m], [n]);
    PlayOne(s, m);
    PlayOne(Move1(s, m), n);
  }

  lemma PlayThree(s: System, k: Move, m: Move, n: Move)
    ensures Play(s, [k, m, n]) == Move1(Move1(Move1(s, k), m), n)
  {
    hide Play, Move1;
    assert [k, m, n] == [k] + [m, n];
    PlayConcat(s, [k], [m, n]);
    PlayOne(s, k);
    PlayTwo(Move1(s, k), m, n);
  }

  // ---- The invariant ----

  predicate Shape(s: System) {
    && s.a.isServer != s.b.isServer
    && s.seenByA <= |s.b.sent| && s.seenByB <= |s.a.sent|
  }

  /** What a has processed of b's frames about a stream. */
  function ByA(s: System, id: StreamId): (v: View)
    requires Shape(s)
  {
    SeenView(s.b, s.seenByA, id)
  }

  /** One side: its own invariants, its link to the other side, and no error but codes 2 and 3. */
  ghost predicate OneSide(s: System)
    requires Shape(s)
  {
    && AllOk(s.a) && WireOk(s.a) && s.a.error in {None, Some(2), Some(3)} && (s.a.error.Some? ==> s.a.closed)
    && forall id :: LinkOk(s.a, id, ByA(s, id), ByA(Flip(s), id))
  }

  ghost predicate Inv(s: System) {
    Shape(s) && OneSide(s) && OneSide(Flip(s))
  }

  lemma ShapeOf(s: System)
    requires Inv(s)
    ensures Shape(s)
  {
    hide OneSide;
  }

  lemma OpeningInv(server: bool, la: Limits, lb: Limits)
    requires Valid(la) && Valid(lb)
    ensures Inv(Opening(server, la, lb))
  {
    hide AllOk, Valid;
    FreshKeeps(server, la);
    FreshKeeps(!server, lb);
    forall id ensures LinkOk(Fresh(server, la), id, BLANK, BLANK) && LinkOk(Fresh(!server, lb), id, BLANK, BLANK) {
      FreshLink(server, la, id);
      FreshLink(!server, lb, id);
    }
  }

  lemma FreshLink(server: bool, lim: Limits, id: StreamId)
    ensures LinkOk(Fresh(server, lim), id, BLANK, BLANK)
  {
  }

  /** b's side of the bargain, in a's terms. */
  lemma PeerGuarantees(s: System, id: StreamId)
    requires Inv(s)
    ensures var px, sy := ByA(s, id), SentView(s.b, id);
            && PeerOk(s.a, id, px, ByA(Flip(s), id))
            && Before(px, sy) && !sy.bad && !sy.early && |sy.bytes| <= ByA(Flip(s), id).grant
            && (Local(s.a, id) && sy.active ==> ByA(Flip(s), id).begun)
  {
    var px, py := ByA(s, id), ByA(Flip(s), id);
    FoldShaped(id, s.b.isServer, s.b.sent[..s.seenByA]);
    FoldGrows(id, s.b.isServer, Log(s.b), s.seenByA);
    assert Log(s.b)[..s.seenByA] == s.b.sent[..s.seenByA];
    FoldGrows(id, s.a.isServer, s.a.sent, s.seenByB);
    FoldGrows(id, s.a.isServer, Log(s.a), |s.a.sent|);
    assert Log(s.a)[..|s.a.sent|] == s.a.sent;
    assert LinkOk(s.b, id, py, px) && StreamOk(s.b, id);
    NotBad(s.b, id);
    EndRole(s.b, id);
    hide Fold, Known, AllOk, WireOk, StreamOk, OneSide, Log, ReaderLink, Shaped;
  }

  /** What was sent stays sent, so what was seen stays seen. */
  lemma SeenStays(e: Endpoint, e': Endpoint, n: nat, id: StreamId)
    requires SameRole(e, e') && n <= |e.sent|
    ensures n <= |e'.sent| && SeenView(e', n, id) == SeenView(e, n, id)
  {
    assert e'.sent[..n] == e.sent[..n];
  }

  lemma ActInv(s: System, action: Action)
    requires Inv(s)
    ensures Inv(ActA(s, action))
  {
    hide AllOk, WireOk, LinkOk, StreamOk, SeenView, Step;
    if Inbound(action) { return; }
    var s' := ActA(s, action);
    StepAllOk(s.a, action);
    StepWire(s.a, action);
    forall id ensures LinkOk(s'.a, id, ByA(s', id), ByA(Flip(s'), id))
        && LinkOk(s.b, id, ByA(Flip(s'), id), ByA(s', id)) {
      SeenStays(s.a, s'.a, s.seenByB, id);
      PeerGuarantees(s, id);
      StreamOf(s.a, id);
      StreamOf(s'.a, id);
      ValidOf(s.a);
      OwnActionLink(s.a, action, id, ByA(s, id), ByA(Flip(s), id));
      assert LinkOk(s.b, id, ByA(Flip(s), id), ByA(s, id));
    }
  }

  lemma StepAllOk(e: Endpoint, a: Action)
    requires AllOk(e)
    ensures AllOk(Step(e, a))
  {
    hide StreamOk, Valid, Step;
    forall id ensures StreamOk(Step(e, a), id) { StepKeeps(e, a, id); }
  }

  lemma StreamOf(e: Endpoint, id: StreamId)
    requires AllOk(e)
    ensures StreamOk(e, id)
  {
    hide StreamOk;
  }

  lemma LinkOf(s: System, id: StreamId)
    requires Inv(s)
    ensures LinkOk(s.a, id, ByA(s, id), ByA(Flip(s), id)) && LinkOk(s.b, id, ByA(Flip(s), id), ByA(s, id))
  {
    hide LinkOk, SeenView, AllOk, WireOk;
  }

  /** The next frame for a, seen against b's log. */
  lemma NextFrame(s: System, id: StreamId)
    requires Inv(s) && s.seenByA < |s.b.sent|
    ensures var f, px' := s.b.sent[s.seenByA], SeenView(s.b, s.seenByA + 1, id);
            && px' == Observe(id, s.b.isServer, ByA(s, id), f)
            && Before(px', SentView(s.b, id)) && Before(ByA(s, id), px')
            && FrameOk(s.b.limits, f)
  {
    hide Fold, AllOk, LinkOk, FrameOk, Observe;
    var log := Log(s.b);
    FoldAt(id, s.b.isServer, log, s.seenByA);
    assert log[..s.seenByA] == s.b.sent[..s.seenByA] && log[..s.seenByA + 1] == s.b.sent[..s.seenByA + 1];
  }

  /** The stream a frame is about. */
  predicate About(f: Frame, j: StreamId) {
    match f
    case OpenUni(id) => id == j
    case OpenBi(id) => id == j
    case Stream(id, _, _) => id == j
    case ResetStream(id, _) => id == j
    case StopSending(id, _) => id == j
    case MaxStreamData(id, _) => id == j
    case ConnectionClose(_, _) => false
  }

  lemma NextFramePlaced(s: System, j: StreamId)
    requires Inv(s) && s.seenByA < |s.b.sent| && About(s.b.sent[s.seenByA], j)
    ensures Placed(s.a, s.b.sent[s.seenByA], j, ByA(s, j), ByA(Flip(s), j))
    ensures Shaped(j, !s.a.isServer, ByA(s, j))
  {
    hide Fold, AllOk, LinkOk, WireOk, Known, Local, Ready, CanSend, DirOf, Counter, FrameOk;
    NextFrame(s, j);
    PeerGuarantees(s, j);
  }

  lemma OpenStep(s: System, j: StreamId, dir: Dir, queued: bool, room: bool, id: StreamId)
    requires Inv(s) && s.seenByA < |s.b.sent| && !s.a.closed
    requires s.b.sent[s.seenByA] == if dir.Uni? then OpenUni(j) else OpenBi(j)
    ensures var e' := ReceiveOpen(s.a, j, dir, queued, room);
            && LinkOk(e', id, Observe(id, !s.a.isServer, ByA(s, id), s.b.sent[s.seenByA]), ByA(Flip(s), id))
            && e'.error in {s.a.error, Some(3)}
  {
    var e, f := s.a, s.b.sent[s.seenByA];
    NextFramePlaced(s, j);
    StreamOf(e, id);
    assert LinkOk(e, id, ByA(s, id), ByA(Flip(s), id)) && LinkOk(e, j, ByA(s, j), ByA(Flip(s), j));
    hide AllOk, WireOk, StreamOk, LinkOk, ReceiveOpen, SeenView, Local, Known, OpenViolation, Shaped;
    assert Observe(id, !e.isServer, ByA(s, id), f) == ObserveOpen(id, !e.isServer, ByA(s, id), j, dir);
    assert Observe(j, !e.isServer, ByA(s, j), f) == ObserveOpen(j, !e.isServer, ByA(s, j), j, dir);
    hide ObserveOpen, Observe;
    OpenPlaced(e, j, dir, ByA(s, j), ByA(Flip(s), j));
    OpenKeepsFlags(id, !e.isServer, ByA(s, id), f);
    OpenDelivered(e, j, dir, queued, room, id, ByA(s, id), ByA(Flip(s), id));
    OpenError(e, j, dir, queued, room);
  }

  lemma OpenKeepsFlags(id: StreamId, server: bool, v: View, f: Frame)
    ensures v.bad ==> Observe(id, server, v, f).bad
    ensures v.early ==> Observe(id, server, v, f).early
  {
    hide DirOf, ByServer, Counter;
  }

  lemma OpenError(e: Endpoint, j: StreamId, dir: Dir, queued: bool, room: bool)
    requires OpenViolation(e, j, dir).None? && j !in e.streams
    ensures ReceiveOpen(e, j, dir, queued, room).error in {e.error, Some(3)}
  {
    hide OpenViolation, HandOverViolation, HandOver, Enqueue, DirOf, Counter, CloseAll, Ascii;
  }

  /** What handling the next frame does to the error code. */
  predicate ErrorAfter(s: System, e': Endpoint)
    requires s.seenByA < |s.b.sent|
  {
    var f := s.b.sent[s.seenByA];
    if f.Stream? && (Half(s.a, f.id) || |f.data| > s.a.limits.maxStreamDataPerFrame) then e'.error == Some(2)
    else e'.error in {s.a.error, Some(3)}
  }

  lemma DataStep(s: System, j: StreamId, data: seq<Byte>, fin: bool, room: bool, id: StreamId)
    requires Inv(s) && s.seenByA < |s.b.sent| && !s.a.closed && s.b.sent[s.seenByA] == Stream(j, data, fin)
    ensures var e' := ReceiveStream(s.a, j, data, fin, room);
            && LinkOk(e', id, Observe(id, !s.a.isServer, ByA(s, id), s.b.sent[s.seenByA]), ByA(Flip(s), id))
            && ErrorAfter(s, e')
  {
    hide AllOk, WireOk, StreamOk, LinkOk, SeenView, Local, StreamViolation, Accounted, Shaped, Header, Ready;
    hide CanSend, Ascii, Half;
    var e := s.a;
    NextFramePlaced(s, j);
    NextFrame(s, j);
    StreamOf(e, id);
    StreamOf(e, j);
    assert LinkOk(e, id, ByA(s, id), ByA(Flip(s), id)) && LinkOk(e, j, ByA(s, j), ByA(Flip(s), j));
    if Half(e, j) {
      HalfPlaced(e, j, data, fin, ByA(s, j), ByA(Flip(s), j));
      DataRefused(e, j, data, fin, room, id, ByA(s, id), ByA(Flip(s), id));
    } else {
      DataPlaced(e, j, data, fin, ByA(s, j), ByA(Flip(s), j));
      DataDelivered(e, j, data, fin, room, id, ByA(s, id), ByA(Flip(s), id));
    }
  }

  lemma ClosedLink(e: Endpoint, f: Frame, id: StreamId, px: View, py: View)
    requires LinkOk(e, id, px, py) && f.ConnectionClose?
    ensures LinkOk(CloseAll(e), id, Observe(id, !e.isServer, px, f), py)
  {
    CloseLink(e, id, px, py);
  }

  lemma ResetStep(s: System, j: StreamId, code: nat, queued: bool, room: bool, id: StreamId)
    requires Inv(s) && s.seenByA < |s.b.sent| && !s.a.closed && s.b.sent[s.seenByA] == ResetStream(j, code)
    ensures var f := s.b.sent[s.seenByA];
            var e' := HandleFrame(s.a, f, queued, room);
            && LinkOk(e', id, Observe(id, !s.a.isServer, ByA(s, id), f), ByA(Flip(s), id))
            && e'.error == s.a.error
  {
    hide AllOk, WireOk, StreamOk, LinkOk, Placed, SeenView, Observe, RemoveRecv, IsRetiredDirection, ProtocolError;
    hide Shaped;
    var e, f := s.a, s.b.sent[s.seenByA];
    NextFramePlaced(s, j);
    StreamOf(e, j);
    assert LinkOk(e, id, ByA(s, id), ByA(Flip(s), id)) && LinkOk(e, j, ByA(s, j), ByA(Flip(s), j));
    if j !in e.streams { TerminalPlaced(e, f, j, ByA(s, j), ByA(Flip(s), j)); }
    ResetDelivered(e, j, code, id, ByA(s, id), ByA(Flip(s), id));
  }

  lemma StopStep(s: System, j: StreamId, code: nat, queued: bool, room: bool, id: StreamId)
    requires Inv(s) && s.seenByA < |s.b.sent| && !s.a.closed && s.b.sent[s.seenByA] == StopSending(j, code)
    ensures var f := s.b.sent[s.seenByA];
            var e' := HandleFrame(s.a, f, queued, room);
            && LinkOk(e', id, Observe(id, !s.a.isServer, ByA(s, id), f), ByA(Flip(s), id))
            && e'.error == s.a.error
  {
    hide AllOk, WireOk, StreamOk, LinkOk, Placed, SeenView, Observe, DoRemoveFlow, Enqueue, CloseAll;
    hide IsRetiredDirection, ProtocolError, Shaped;
    var e, f := s.a, s.b.sent[s.seenByA];
    NextFramePlaced(s, j);
    StreamOf(e, j);
    StreamOf(e, id);
    assert LinkOk(e, id, ByA(s, id), ByA(Flip(s), id)) && LinkOk(e, j, ByA(s, j), ByA(Flip(s), j));
    StopDelivered(e, j, code, id, ByA(s, id), ByA(Flip(s), id));
    if j in e.sendFlows {
      StopAnswered(e, j, code, id, Observe(id, !e.isServer, ByA(s, id), f), ByA(Flip(s), id));
      StopUnanswered(e, j, id, Observe(id, !e.isServer, ByA(s, id), f), ByA(Flip(s), id));
    } else {
      TerminalPlaced(e, f, j, ByA(s, j), ByA(Flip(s), j));
    }
  }

  /** Delivering any frame keeps a's links, and raises no code but 3 unless it undoes an open given up halfway. */
  lemma DeliverLink(s: System, queued: bool, room: bool, id: StreamId)
    requires Inv(s) && s.seenByA < |s.b.sent| && !s.a.closed
    ensures var f := s.b.sent[s.seenByA];
            var e' := HandleFrame(s.a, f, queued, room);
            && LinkOk(e', id, Observe(id, !s.a.isServer, ByA(s, id), f), ByA(Flip(s), id))
            && ErrorAfter(s, e')
  {
    hide OneSide, LinkOk, Observe, ReceiveOpen, ReceiveStream, IsRetiredDirection;
    hide ProtocolError, AnswerStop, RemoveRecv, CloseAll, SeenView, Half;
    var e, f, px, py := s.a, s.b.sent[s.seenByA], ByA(s, id), ByA(Flip(s), id);
    LinkOf(s, id);
    match f
    case OpenUni(j) => OpenStep(s, j, Uni, queued, room, id);
    case OpenBi(j) => OpenStep(s, j, Bi, queued, room, id);
    case Stream(j, data, fin) => DataStep(s, j, data, fin, room, id);
    case ResetStream(j, code) => ResetStep(s, j, code, queued, room, id);
    case StopSending(j, code) => StopStep(s, j, code, queued, room, id);
    case MaxStreamData(j, max) => CreditDelivered(e, j, max, queued, room, id, px, py);
    case ConnectionClose(_, _) => ClosedLink(e, f, id, px, py);
  }

  lemma DeliveredLinks(s: System, queued: bool, room: bool, id: StreamId)
    requires Inv(s) && s.seenByA < |s.b.sent| && !s.a.closed && Shape(DeliverA(s, queued, room))
    ensures var s' := DeliverA(s, queued, room);
            && LinkOk(s'.a, id, ByA(s', id), ByA(Flip(s'), id)) && LinkOk(s'.b, id, ByA(Flip(s'), id), ByA(s', id))
            && ErrorAfter(s, s'.a)
  {
    hide OneSide, LinkOk, Fold, Observe, HandleFrame, FrameOk, Before, ErrorAfter;
    var s' := DeliverA(s, queued, room);
    LinkOf(s, id);
    SeenStays(s.a, s'.a, s.seenByB, id);
    NextFrame(s, id);
    DeliverLink(s, queued, room, id);
    LinkLater(s.b, id, ByA(Flip(s), id), ByA(s, id), ByA(s', id));
  }

  lemma DeliverInv(s: System, queued: bool, room: bool)
    requires Inv(s)
    ensures Inv(DeliverA(s, queued, room))
  {
    hide AllOk, WireOk, LinkOk, SeenView, Observe, HandleFrame, FrameOk;
    if s.a.closed || s.seenByA >= |s.b.sent| { return; }
    var s', f := DeliverA(s, queued, room), s.b.sent[s.seenByA];
    NextFrame(s, 0);
    FrameEncodes(s.b.limits, f);
    StepAllOk(s.a, Receive(f, queued, room));
    StepWire(s.a, Receive(f, queued, room));
    DeliveredLinks(s, queued, room, 0);
    forall id ensures LinkOk(s'.a, id, ByA(s', id), ByA(Flip(s'), id))
        && LinkOk(s'.b, id, ByA(Flip(s'), id), ByA(s', id)) {
      DeliveredLinks(s, queued, room, id);
    }
  }

  lemma FrameEncodes(lim: Limits, f: Frame)
    requires FrameOk(lim, f)
    ensures Fits(Header(f))
  {
  }

  lemma LinkLater(e: Endpoint, id: StreamId, px: View, py: View, py': View)
    requires LinkOk(e, id, px, py) && Before(py, py')
    ensures LinkOk(e, id, px, py')
  {
    hide EndOf, SentView, ReaderLink, CanSend;
  }

  /** In every run of two honest endpoints, every move keeps the invariant. */
  lemma {:induction false} PlayInv(s: System, moves: seq<Move>)
    requires Inv(s)
    ensures Inv(Play(s, moves))
  {
    hide Inv, ActA, DeliverA, Flip;
    if moves != [] {
      var mid := Play(s, moves[..|moves| - 1]);
      PlayInv(s, moves[..|moves| - 1]);
      FlipInv(mid);
      match moves[|moves| - 1]
      case Act(byA, action) =>
        ActInv(mid, action);
        ActInv(Flip(mid), action);
        FlipInv(ActA(Flip(mid), action));
      case Deliver(toA, queued, room) =>
        DeliverInv(mid, queued, room);
        DeliverInv(Flip(mid), queued, room);
        FlipInv(DeliverA(Flip(mid), queued, room));
    }
  }

  lemma FlipInv(s: System)
    requires Inv(s)
    ensures Inv(Flip(s))
  {
    hide OneSide;
  }

  // ---- What the invariant means, in terms of frames ----

  /** The payload that a sequence of frames carries for a stream. */
  function Carried(id: StreamId, frames: seq<Frame>): (bytes: seq<Byte>) {
    if frames == [] then []
    else
      var last := frames[|frames| - 1];
      Carried(id, frames[..|frames| - 1]) + (if last.Stream? && last.id == id then last.data else [])
  }

  /** The largest credit that a sequence of frames announces for a stream. */
  function Announced(id: StreamId, frames: seq<Frame>): (max: nat) {
    if frames == [] then 0
    else
      var last := frames[|frames| - 1];
      Max(Announced(id, frames[..|frames| - 1]), if last.MaxStreamData? && last.id == id then last.max else 0)
  }

  lemma ObserveMeans(id: StreamId, server: bool, v: View, f: Frame)
    ensures Observe(id, server, v, f).bytes == v.bytes + (if f.Stream? && f.id == id then f.data else [])
    ensures Observe(id, server, v, f).grant == Max(v.grant, if f.MaxStreamData? && f.id == id then f.max else 0)
  {
    hide Ready, CanSend, CanReceive, ObserveOpen;
    if f.OpenUni? || f.OpenBi? { OpenCarriesNothing(id, server, v, f.id, if f.OpenUni? then Uni else Bi); }
  }

  lemma OpenCarriesNothing(id: StreamId, server: bool, v: View, j: StreamId, dir: Dir)
    ensures ObserveOpen(id, server, v, j, dir).bytes == v.bytes && ObserveOpen(id, server, v, j, dir).grant == v.grant
  {
    hide DirOf, ByServer, Counter;
  }

  lemma {:induction false} ViewMeans(id: StreamId, server: bool, log: seq<Frame>)
    ensures Fold(id, server, log).bytes == Carried(id, log)
    ensures Fold(id, server, log).grant == Announced(id, log)
  {
    hide Observe;
    if log != [] {
      ViewMeans(id, server, log[..|log| - 1]);
      ObserveMeans(id, server, Fold(id, server, log[..|log| - 1]), log[|log| - 1]);
    }
  }

  lemma LastFrame(id: StreamId, frames: seq<Frame>, last: Frame)
    ensures Carried(id, frames + [last])
            == Carried(id, frames) + (if last.Stream? && last.id == id then last.data else [])
    ensures Announced(id, frames + [last])
            == Max(Announced(id, frames), if last.MaxStreamData? && last.id == id then last.max else 0)
  {
    assert (frames + [last])[..|frames|] == frames;
  }

  lemma NoFrames(id: StreamId)
    ensures Carried(id, []) == [] && Announced(id, []) == 0
  {
  }

  lemma {:induction false} Splits(id: StreamId, x: seq<Frame>, y: seq<Frame>)
    ensures Carried(id, x + y) == Carried(id, x) + Carried(id, y)
    ensures Announced(id, x + y) == Max(Announced(id, x), Announced(id, y))
  {
    hide Carried, Announced;
    if y == [] {
      assert x + y == x;
      NoFrames(id);
    } else {
      var most, last := y[..|y| - 1], y[|y| - 1];
      Splits(id, x, most);
      assert y == most + [last] && x + y == x + most + [last];
      LastFrame(id, most, last);
      LastFrame(id, x + most, last);
    }
  }

  /** Frames of b that a has not processed: in transit, then still queued. */
  function ToA(s: System): (frames: seq<Frame>) {
    s.b.sent[Min(s.seenByA, |s.b.sent|)..] + s.b.outbound
  }

  /** One of the two directions of a connection. */
  function Facing(s: System, flipped: bool): (r: System) {
    if flipped then Flip(s) else s
  }

  /** The limits of the side that faces a, and those of its peer. */
  function Ours(la: Limits, lb: Limits, flipped: bool): (l: Limits) {
    if flipped then lb else la
  }

  function Theirs(la: Limits, lb: Limits, flipped: bool): (l: Limits) {
    if flipped then la else lb
  }

  lemma Reached(la: Limits, lb: Limits, moves: seq<Move>, flipped: bool)
    requires Valid(la) && Valid(lb)
    ensures var s := Facing(Play(Start(la, lb), moves), flipped);
            Inv(s) && s.a.limits == Ours(la, lb, flipped) && s.b.limits == Theirs(la, lb, flipped)
  {
    hide Inv, Valid;
    OpeningInv(false, la, lb);
    PlayInv(Start(la, lb), moves);
    FlipInv(Play(Start(la, lb), moves));
    PlayLimits(Start(la, lb), moves);
  }

  /** The same move by the other side. */
  function Mirror(m: Move): (r: Move) {
    if m.Act? then m.(byA := !m.byA) else m.(toA := !m.toA)
  }

  function Mirrored(moves: seq<Move>): (r: seq<Move>)
    ensures |r| == |moves|
  {
    seq(|moves|, i requires 0 <= i < |moves| => Mirror(moves[i]))
  }

  lemma {:induction false} PlayMirrored(s: System, moves: seq<Move>)
    ensures Play(Flip(s), Mirrored(moves)) == Flip(Play(s, moves))
    decreases |moves|
  {
    hide ActA, DeliverA;
    if moves != [] {
      PlayMirrored(s, moves[..|moves| - 1]);
      assert Mirrored(moves)[..|moves| - 1] == Mirrored(moves[..|moves| - 1]);
    }
  }

  /** Moves of the side that faces a, as moves of the system. */
  function BySide(moves: seq<Move>, flipped: bool): (r: seq<Move>) {
    if flipped then Mirrored(moves) else moves
  }

  /** What a system does from its opening, either side can see happen. */
  lemma EitherSide(la: Limits, lb: Limits, moves: seq<Move>, flipped: bool)
    ensures Facing(Play(Start(la, lb), BySide(moves, flipped)), flipped)
            == Play(Opening(flipped, Ours(la, lb, flipped), Theirs(la, lb, flipped)), moves)
  {
    hide Play, Mirrored;
    if flipped {
      PlayMirrored(Opening(true, lb, la), moves);
      assert Flip(Opening(true, lb, la)) == Start(la, lb);
    }
  }

  lemma {:induction false} PlayLimits(s: System, moves: seq<Move>)
    ensures Play(s, moves).a.limits == s.a.limits && Play(s, moves).b.limits == s.b.limits
  {
    hide Step;
    if moves != [] { PlayLimits(s, moves[..|moves| - 1]); }
  }

  /** In this move the side that faces a handles a FIN of a stream that it gave up halfway through its open. */
  predicate Undoes(s: System, m: Move, flipped: bool) {
    var t := Facing(s, flipped);
    && m.Deliver? && m.toA != flipped && !t.a.closed && t.seenByA < |t.b.sent|
    && var f := t.b.sent[t.seenByA]; f.Stream? && f.fin && Half(t.a, f.id)
  }

  predicate Undone(la: Limits, lb: Limits, moves: seq<Move>, flipped: bool)
    decreases |moves|
  {
    moves != []
    && (|| Undone(la, lb, moves[..|moves| - 1], flipped)
        || Undoes(Play(Start(la, lb), moves[..|moves| - 1]), moves[|moves| - 1], flipped))
  }

  /** In this move the side that faces a handles a data frame larger than it takes. */
  predicate Strains(s: System, m: Move, flipped: bool) {
    var t := Facing(s, flipped);
    && m.Deliver? && m.toA != flipped && !t.a.closed && t.seenByA < |t.b.sent|
    && var f := t.b.sent[t.seenByA]; f.Stream? && |f.data| > t.a.limits.maxStreamDataPerFrame
  }

  predicate Strained(la: Limits, lb: Limits, moves: seq<Move>, flipped: bool)
    decreases |moves|
  {
    moves != []
    && (|| Strained(la, lb, moves[..|moves| - 1], flipped)
        || Strains(Play(Start(la, lb), moves[..|moves| - 1]), moves[|moves| - 1], flipped))
  }

  /** Two honest endpoints never raise code 1, and code 2 exactly by a FIN for a stream that was given up halfway
      through its open, or by a data frame larger than the receiver takes. */
  lemma {:induction false} NoProtocolErrors(la: Limits, lb: Limits, moves: seq<Move>, flipped: bool)
    requires Valid(la) && Valid(lb)
    ensures Facing(Play(Start(la, lb), moves), flipped).a.error in {None, Some(2), Some(3)}
    ensures Facing(Play(Start(la, lb), moves), flipped).a.error == Some(2)
            <==> Undone(la, lb, moves, flipped) || Strained(la, lb, moves, flipped)
  {
    hide Inv, Move1, Undoes, Strains, Facing, Valid;
    if moves == [] {
      StartFaultless(la, lb, flipped);
    } else {
      var front := moves[..|moves| - 1];
      NoProtocolErrors(la, lb, front, flipped);
      Reached(la, lb, front, flipped);
      ErrorStep(Play(Start(la, lb), front), moves[|moves| - 1], flipped);
    }
  }

  lemma StartFaultless(la: Limits, lb: Limits, flipped: bool)
    ensures Facing(Start(la, lb), flipped).a.error == None
  {
  }

  /** One more move, seen from the side that faces a. */
  lemma ErrorStep(s: System, m: Move, flipped: bool)
    requires Inv(Facing(s, flipped))
    ensures var t, t' := Facing(s, flipped), Facing(Move1(s, m), flipped);
            if Undoes(s, m, flipped) || Strains(s, m, flipped) then t.a.error == None && t'.a.error == Some(2)
            else t'.a.error in {t.a.error, Some(3)} && (t.a.error == Some(2) ==> t'.a.error == Some(2))
  {
    hide Inv, Half, Step;
    var t := Facing(s, flipped);
    CodesOf(t);
    if m.Deliver? && m.toA != flipped && !t.a.closed && t.seenByA < |t.b.sent| {
      assert Facing(Move1(s, m), flipped) == DeliverA(t, m.queued, m.room);
      DeliveredError(t, m.queued, m.room);
    }
  }

  lemma CodesOf(s: System)
    requires Inv(s)
    ensures s.a.error in {None, Some(2), Some(3)} && (s.a.error.Some? ==> s.a.closed)
  {
    hide AllOk, WireOk, LinkOk, SeenView;
  }

  lemma DeliveredError(s: System, queued: bool, room: bool)
    requires Inv(s) && s.seenByA < |s.b.sent| && !s.a.closed
    ensures var f, e' := s.b.sent[s.seenByA], DeliverA(s, queued, room).a;
            if f.Stream? && ((f.fin && Half(s.a, f.id)) || |f.data| > s.a.limits.maxStreamDataPerFrame)
            then e'.error == Some(2) else e'.error in {s.a.error, Some(3)}
  {
    hide Inv, LinkOk, Half, HandleFrame, Observe, SeenView;
    assert Shape(s) by { ShapeOf(s); }
    DeliverLink(s, queued, room, 0);
    var f := s.b.sent[s.seenByA];
    if f.Stream? && Half(s.a, f.id) { HalfMeansFin(s, f.id); }
  }

  lemma HalfMeansFin(s: System, j: StreamId)
    requires Inv(s) && s.seenByA < |s.b.sent| && !s.a.closed
    requires s.b.sent[s.seenByA].Stream? && s.b.sent[s.seenByA].id == j && Half(s.a, j)
    ensures s.b.sent[s.seenByA].fin
  {
    hide AllOk, WireOk, StreamOk, LinkOk, SeenView, Half, Placed, Observe, Shaped;
    NextFramePlaced(s, j);
    NextFrame(s, j);
    StreamOf(s.a, j);
    assert LinkOk(s.a, j, ByA(s, j), ByA(Flip(s), j));
    HalfPlaced(s.a, j, s.b.sent[s.seenByA].data, s.b.sent[s.seenByA].fin, ByA(s, j), ByA(Flip(s), j));
  }

  lemma TransitMeans(s: System, id: StreamId)
    requires Inv(s)
    ensures ByA(s, id).bytes + Carried(id, ToA(s)) == SentView(s.b, id).bytes == Carried(id, Log(s.b))
    ensures Max(ByA(s, id).grant, Announced(id, ToA(s))) == SentView(s.b, id).grant == Announced(id, Log(s.b))
    ensures ByA(s, id).bytes == Carried(id, s.b.sent[..s.seenByA])
    ensures ByA(s, id).grant == Announced(id, s.b.sent[..s.seenByA])
  {
    hide OneSide, Fold, Carried, Announced;
    ViewMeans(id, s.b.isServer, s.b.sent[..s.seenByA]);
    ViewMeans(id, s.b.isServer, Log(s.b));
    Splits(id, s.b.sent[..s.seenByA], ToA(s));
    assert s.b.sent[..s.seenByA] + ToA(s) == Log(s.b);
  }

  /** Credit safety: the bytes a has received, plus those in transit or queued, are what b has sent; b
      never reserves beyond the credit it was given; and that never exceeds the limit a enforces. */
  lemma CreditSafety(la: Limits, lb: Limits, moves: seq<Move>, flipped: bool, id: StreamId)
    requires Valid(la) && Valid(lb)
    ensures var s := Facing(Play(Start(la, lb), moves), flipped);
            && (id in s.a.streams ==>
                  && s.a.streams[id].received + |Carried(id, ToA(s))| == |Carried(id, Log(s.b))|
                  && |Carried(id, Log(s.b))| <= Announced(id, Log(s.a)) <= s.a.streams[id].maxData)
            && (id in s.b.sendFlows ==>
                  && |Carried(id, Log(s.b))| + |s.b.sendFlows[id].reserved| == s.b.sendFlows[id].sentData
                  && s.b.sendFlows[id].sentData <= s.b.sendFlows[id].maxData
                      == Announced(id, s.a.sent[..Min(s.seenByB, |s.a.sent|)]))
            && (id in s.a.streams && id in s.b.sendFlows ==>
                  s.b.sendFlows[id].maxData <= s.a.streams[id].maxData)
  {
    hide Play, Facing, Carried, Announced;
    Reached(la, lb, moves, flipped);
    var s := Facing(Play(Start(la, lb), moves), flipped);
    SafeHere(s, id);
  }

  lemma SafeHere(s: System, id: StreamId)
    requires Inv(s)
    ensures id in s.a.streams ==>
              && s.a.streams[id].received + |Carried(id, ToA(s))| == |Carried(id, Log(s.b))|
              && |Carried(id, Log(s.b))| <= Announced(id, Log(s.a)) <= s.a.streams[id].maxData
    ensures id in s.b.sendFlows ==>
              && |Carried(id, Log(s.b))| + |s.b.sendFlows[id].reserved| == s.b.sendFlows[id].sentData
              && s.b.sendFlows[id].sentData <= s.b.sendFlows[id].maxData
                  == Announced(id, s.a.sent[..Min(s.seenByB, |s.a.sent|)])
    ensures id in s.a.streams && id in s.b.sendFlows ==> s.b.sendFlows[id].maxData <= s.a.streams[id].maxData
  {
    TransitMeans(s, id);
    TransitMeans(Flip(s), id);
    LinkOf(s, id);
    PeerGuarantees(s, id);
    PeerGuarantees(Flip(s), id);
    StreamOf(s.a, id);
    StreamOf(s.b, id);
    hide OneSide, Fold, Carried, Announced, Known, Local, ReaderInv, CanSend, Ready, Arrived, HasFin, NoFin;
  }

  /** Stream integrity: however writes were cut into chunks and reads mixed, what the application at a has
      read is a prefix of what b has written; once it has read past the FIN, it has read everything. */
  lemma StreamIntegrity(la: Limits, lb: Limits, moves: seq<Move>, flipped: bool, id: StreamId)
    requires Valid(la) && Valid(lb)
    ensures var s := Facing(Play(Start(la, lb), moves), flipped);
            id in s.a.readers ==>
              && s.a.readers[id].delivered <= Carried(id, Log(s.b))
              && (s.a.readers[id].finSeen && s.a.readers[id].pending == [] ==>
                    s.a.readers[id].delivered == Carried(id, Log(s.b)))
              && (!s.a.closed && !s.a.readers[id].stopSent ==>
                    Arrived(s.a.readers[id]) + Carried(id, ToA(s)) == Carried(id, Log(s.b)))
  {
    hide Play, Facing, Carried;
    Reached(la, lb, moves, flipped);
    var s := Facing(Play(Start(la, lb), moves), flipped);
    if id in s.a.readers { IntegrityHere(s, id); }
  }

  lemma IntegrityHere(s: System, id: StreamId)
    requires Inv(s) && id in s.a.readers
    ensures s.a.readers[id].delivered <= Carried(id, Log(s.b))
    ensures s.a.readers[id].finSeen && s.a.readers[id].pending == []
            ==> s.a.readers[id].delivered == Carried(id, Log(s.b))
    ensures !s.a.closed && !s.a.readers[id].stopSent ==>
              Arrived(s.a.readers[id]) + Carried(id, ToA(s)) == Carried(id, Log(s.b))
  {
    TransitMeans(s, id);
    LinkOf(s, id);
    PeerGuarantees(s, id);
    StreamOf(s.a, id);
    ReaderOf(s.a, id);
    hide OneSide, Fold, Carried, Announced, Known, Local, StreamInv;
    hide FlowInv, CanSend, Ready, HasFin, NoFin, FinOnlyLast, Target;
    var rd := s.a.readers[id];
    assert rd.delivered <= Arrived(rd);
    assert rd.finSeen && rd.pending == [] ==> Arrived(rd) == rd.delivered;
  }

  lemma GrantHere(s: System, id: StreamId)
    requires Inv(s) && id in s.a.streams && !s.a.streams[id].stopped && id in s.a.readers
    ensures Announced(id, Log(s.a)) > 0 || id in s.a.pendingCredit ==>
              s.a.streams[id].maxData
              == Max(Announced(id, Log(s.a)), if id in s.a.pendingCredit then s.a.pendingCredit[id] else 0)
    ensures s.a.readers[id].consumed + s.a.limits.windowUpdateThreshold <= MAX ==>
              s.a.readers[id].consumed < s.a.streams[id].maxData
  {
    TransitMeans(Flip(s), id);
    StreamOf(s.a, id);
    assert Valid(s.a.limits);
    hide OneSide, Fold, Announced, Known, Local, FlowInv, CanSend, Ready, NoFin, FinOnlyLast, Arrived;
  }

  lemma DrainedHere(s: System, id: StreamId)
    requires Inv(s) && id in s.a.streams && !s.a.streams[id].stopped && id in s.a.readers
    requires s.a.readers[id].pending == [] && Queued(s.a.readers[id].queue) == []
    ensures s.a.streams[id].received == s.a.readers[id].consumed
  {
    StreamOf(s.a, id);
    hide OneSide, Fold, Known, Local, FlowInv, CanSend, Ready, NoFin, FinOnlyLast, Target, Queued;
  }

  // ---- The end of a stream ----

  predicate Finned(id: StreamId, log: seq<Frame>) {
    exists i :: 0 <= i < |log| && log[i].Stream? && log[i].id == id && log[i].fin
  }

  predicate WasReset(id: StreamId, log: seq<Frame>) {
    exists i :: 0 <= i < |log| && log[i].ResetStream? && log[i].id == id
  }

  lemma EndAppend(id: StreamId, log: seq<Frame>, f: Frame)
    ensures Finned(id, log + [f]) <==> Finned(id, log) || (f.Stream? && f.id == id && f.fin)
    ensures WasReset(id, log + [f]) <==> WasReset(id, log) || (f.ResetStream? && f.id == id)
  {
    var all := log + [f];
    assert all[|log|] == f;
    assert forall i :: 0 <= i < |log| ==> all[i] == log[i];
  }

  lemma EndObserved(id: StreamId, server: bool, v: View, f: Frame)
    requires !Observe(id, server, v, f).bad
    ensures !v.bad
    ensures var w := Observe(id, server, v, f);
            w.ended == (if f.Stream? && f.id == id && f.fin then Finished
                        else if f.ResetStream? && f.id == id && v.ended.Live? then Aborted else v.ended)
    ensures f.Stream? && f.id == id ==> v.ended.Live?
  {
    hide DirOf, ByServer, Counter, CanSend, Ready;
  }

  /** How a log ended a stream: by its FIN, or by a reset without one. */
  lemma {:induction false} EndMeans(id: StreamId, server: bool, log: seq<Frame>)
    requires !Fold(id, server, log).bad
    ensures Fold(id, server, log).ended
            == (if Finned(id, log) then Finished else if WasReset(id, log) then Aborted else Live)
  {
    if log != [] {
      var front, last := log[..|log| - 1], log[|log| - 1];
      hide Observe, Finned, WasReset;
      EndObserved(id, server, Fold(id, server, front), last);
      EndMeans(id, server, front);
      EndAppend(id, front, last);
      assert front + [last] == log;
    }
  }

  /** Completeness: whenever an application that did not stop a stream is told of its end while its session is open,
      it has read every byte the peer ever queued for it. It was told by the FIN exactly when the peer queued one;
      otherwise a reset cut the stream off after those bytes. */
  lemma EndOfStream(la: Limits, lb: Limits, moves: seq<Move>, flipped: bool, id: StreamId)
    requires Valid(la) && Valid(lb)
    ensures var s := Facing(Play(Start(la, lb), moves), flipped);
            id in s.a.readers && !s.a.closed && !s.a.readers[id].stopSent
            && s.a.readers[id].finished && s.a.readers[id].pending == [] ==>
              && s.a.readers[id].delivered == Carried(id, Log(s.b))
              && (s.a.readers[id].finSeen <==> Finned(id, Log(s.b)))
              && (!s.a.readers[id].finSeen ==> WasReset(id, Log(s.b)))
  {
    hide Play, Facing, Carried, Finned, WasReset, Inv;
    Reached(la, lb, moves, flipped);
    var s := Facing(Play(Start(la, lb), moves), flipped);
    if id in s.a.readers && !s.a.closed && !s.a.readers[id].stopSent
       && s.a.readers[id].finished && s.a.readers[id].pending == [] {
      EndHere(s, id);
    }
  }

  lemma EndHere(s: System, id: StreamId)
    requires Inv(s) && id in s.a.readers && !s.a.closed && !s.a.readers[id].stopSent
    requires s.a.readers[id].finished && s.a.readers[id].pending == []
    ensures s.a.readers[id].delivered == Carried(id, Log(s.b))
    ensures s.a.readers[id].finSeen <==> Finned(id, Log(s.b))
    ensures !s.a.readers[id].finSeen ==> WasReset(id, Log(s.b))
  {
    var rd, px, sy := s.a.readers[id], ByA(s, id), SentView(s.b, id);
    TransitMeans(s, id);
    LinkOf(s, id);
    PeerGuarantees(s, id);
    StreamOf(s.a, id);
    EndMeans(id, s.b.isServer, Log(s.b));
    EndedHere(s.a, id, px, ByA(Flip(s), id));
    hide OneSide, Fold, Carried, Finned, WasReset, LinkOk, StreamOk, Inv;
  }

  lemma EndedHere(e: Endpoint, id: StreamId, px: View, py: View)
    requires LinkOk(e, id, px, py) && StreamOk(e, id) && id in e.readers && !e.closed && !e.readers[id].stopSent
    requires e.readers[id].finished && e.readers[id].pending == []
    ensures !px.ended.Live? && e.readers[id].delivered == px.bytes && (e.readers[id].finSeen <==> px.ended == Finished)
  {
    hide Fold, Known, Local, ByServer, FlowInv, NoFin;
    EndRole(e, id);
  }
}
