/** Between honest endpoints the only way for data to end a session is a full receive queue. This module says for
    which limits that can happen. */
module Overflow {
  import opened VarInts
  import opened Frames
  import opened SessionLimits
  import opened Endpoints
  import opened Views
  import opened EndpointInvariant
  import opened EndpointTheorems
  import opened TwoParty
  import opened CreditOrder
  import opened Liveness
  import opened FirstStream

  // ---- Events of an honest peer ----

  /** Every event but a FIN carries data. */
  predicate Lean(q: seq<RecvEvent>) {
    forall i :: 0 <= i < |q| && q[i].data == [] ==> q[i].fin
  }

  predicate LeanAt(e: Endpoint, id: StreamId) {
    id in e.readers ==> Lean(e.readers[id].queue)
  }

  lemma {:induction false} LeanLength(q: seq<RecvEvent>)
    requires Lean(q) && NoFin(q)
    ensures |q| <= |Queued(q)|
  {
    if q != [] {
      assert q[0].data != [];
      LeanLength(q[1..]);
    }
  }

  lemma SendLean(e: Endpoint, j: StreamId, data: seq<Byte>, id: StreamId)
    requires LeanAt(e, id)
    ensures LeanAt(DoReserve(e, j, data), id) && LeanAt(DoRelease(e, j), id)
    ensures LeanAt(DoCommit(e, j), id) && LeanAt(DoQueueFin(e, j), id)
  {
    hide Lean, Min;
  }

  lemma ControlLean(e: Endpoint, j: StreamId, code: nat, id: StreamId)
    requires LeanAt(e, id)
    ensures LeanAt(DoRemoveFlow(e, j), id) && LeanAt(DoDropWriter(e, j), id)
    ensures LeanAt(DoQueueReset(e, j, code), id) && LeanAt(DoQueueStop(e, j, code), id)
  {
    hide Lean;
  }

  lemma WriteLean(e: Endpoint, j: StreamId, id: StreamId)
    requires LeanAt(e, id)
    ensures LeanAt(DoSendQueued(e), id) && LeanAt(DoSendCredit(e, j), id)
    ensures LeanAt(DoAcceptUni(e), id) && LeanAt(DoAcceptBi(e), id)
  {
    hide Lean;
  }

  lemma PopLean(e: Endpoint, j: StreamId, id: StreamId)
    requires LeanAt(e, id)
    ensures LeanAt(DoPopEvent(e, j), id)
  {
  }

  lemma StopLean(e: Endpoint, j: StreamId, id: StreamId)
    requires LeanAt(e, id)
    ensures LeanAt(DoStopRead(e, j), id) && LeanAt(DoDropReader(e, j), id) && LeanAt(CloseAll(e), id)
  {
    hide Lean;
  }

  lemma ConsumeLean(e: Endpoint, j: StreamId, n: nat, id: StreamId)
    requires LeanAt(e, id)
    ensures LeanAt(DoConsume(e, j, n), id)
  {
    hide Lean, QueueCredit, Target;
    if j in e.readers && 0 < n <= |e.readers[j].pending| {
      var rd1 := Handed(e.readers[j], n);
      var target := Target(e.limits.initialStreamWindow, rd1.consumed);
      CreditReaders(Raised(e, j, rd1.(granted := target)), j, target);
    }
  }

  lemma ErrorLean(e: Endpoint, code: nat, reason: string, room: bool, id: StreamId)
    requires LeanAt(e, id)
    ensures LeanAt(ProtocolError(e, code, reason, room), id)
  {
    hide Lean, Ascii;
  }

  lemma RegisterLean(e: Endpoint, j: StreamId, id: StreamId)
    requires LeanAt(e, id)
    ensures LeanAt(RegisterRecv(e, j), id) && LeanAt(RegisterSend(e, j), id)
  {
  }

  lemma OpenUniLean(e: Endpoint, queued: bool, id: StreamId)
    requires LeanAt(e, id)
    ensures LeanAt(DoOpenUni(e, queued), id)
  {
    hide Lean, NewId, RegisterSend, SendSlotFree, Steady;
    var u := NewId(e.nextUni, e.isServer, Uni);
    if u.Some? { RegisterLean(e.(nextUni := e.nextUni + 1), u.value, id); }
  }

  lemma OpenBiLean(e: Endpoint, queued: bool, credited: bool, id: StreamId)
    requires LeanAt(e, id)
    ensures LeanAt(DoOpenBi(e, queued, credited), id)
  {
    hide Lean, NewId, RegisterSend, RegisterRecv, SendSlotFree, Steady;
    var b := NewId(e.nextBi, e.isServer, Bi);
    if b.Some? {
      var e1 := e.(nextBi := e.nextBi + 1);
      RegisterLean(e1, b.value, id);
      RegisterLean(RegisterSend(e1, b.value), b.value, id);
    }
  }

  lemma HandOverLean(e: Endpoint, j: StreamId, id: StreamId)
    requires LeanAt(e, id)
    ensures LeanAt(HandOver(e, j), id)
  {
    hide Lean, RegisterSend, RegisterRecv, DirOf;
    RegisterLean(e, j, id);
    RegisterLean(RegisterRecv(e, j), j, id);
  }

  lemma ReceiveOpenLean(e: Endpoint, j: StreamId, dir: Dir, queued: bool, room: bool, id: StreamId)
    requires LeanAt(e, id)
    ensures LeanAt(ReceiveOpen(e, j, dir, queued, room), id)
  {
    hide Lean, ProtocolError, Admit, OpenViolation, DirOf, Counter;
    if OpenViolation(e, j, dir).Some? {
      ErrorLean(e, 1, OpenViolation(e, j, dir).value, room, id);
    } else {
      AdmitLean(PassPeerFrontier(e, j), j, queued, room, id);
    }
  }

  lemma AdmitLean(e: Endpoint, j: StreamId, queued: bool, room: bool, id: StreamId)
    requires LeanAt(e, id)
    ensures LeanAt(Admit(e, j, queued, room), id)
  {
    hide Lean, ProtocolError, HandOver, HandOverViolation;
    var e1 := if queued then Enqueue(e, InitialCredit(e, j)) else e;
    ErrorLean(e, 3, "too many open streams", room, id);
    ErrorLean(e, 1, "duplicate stream open", room, id);
    if HandOverViolation(e, j).Some? { ErrorLean(e1, 3, HandOverViolation(e, j).value, room, id); }
    HandOverLean(e1, j, id);
  }

  lemma DataLean(e: Endpoint, j: StreamId, data: seq<Byte>, fin: bool, room: bool, id: StreamId)
    requires LeanAt(e, id) && (data == [] ==> fin)
    ensures LeanAt(ReceiveStream(e, j, data, fin, room), id)
  {
    hide ProtocolError;
    var v := StreamViolation(e, j, data);
    if v.Some? { ErrorLean(e, v.value.0, v.value.1, room, id); }
  }

  lemma ReceiveLean(e: Endpoint, f: Frame, queued: bool, room: bool, id: StreamId)
    requires LeanAt(e, id) && (f.Stream? && f.data == [] ==> f.fin)
    ensures LeanAt(HandleFrame(e, f, queued, room), id)
  {
    hide Lean, ReceiveOpen, ReceiveStream, ProtocolError, IsRetiredDirection, Max;
    ErrorLean(e, 1, "reset on unknown stream", room, id);
    ErrorLean(e, 1, "stop on unknown stream", room, id);
    match f
    case OpenUni(j) => ReceiveOpenLean(e, j, Uni, queued, room, id);
    case OpenBi(j) => ReceiveOpenLean(e, j, Bi, queued, room, id);
    case Stream(j, data, fin) => DataLean(e, j, data, fin, room, id);
    case _ =>
  }

  lemma StepLean(e: Endpoint, a: Action, id: StreamId)
    requires LeanAt(e, id) && (a.Receive? && a.frame.Stream? && a.frame.data == [] ==> a.frame.fin)
    ensures LeanAt(Step(e, a), id)
  {
    hide *;
    StepForm(e, a);
    match a
    case OpenUniStream(queued) => OpenUniLean(e, queued, id);
    case OpenBiStream(queued, credited) => OpenBiLean(e, queued, credited, id);
    case Reserve(j, data) => SendLean(e, j, data, id);
    case Commit(j) => SendLean(e, j, [], id);
    case Release(j) => SendLean(e, j, [], id);
    case QueueFin(j) => SendLean(e, j, [], id);
    case RemoveFlow(j) => ControlLean(e, j, 0, id);
    case DropWriter(j) => ControlLean(e, j, 0, id);
    case QueueReset(j, code) => ControlLean(e, j, code, id);
    case AcceptUni => WriteLean(e, 0, id);
    case AcceptBi => WriteLean(e, 0, id);
    case QueueStop(j, code) => ControlLean(e, j, code, id);
    case PopEvent(j) => PopLean(e, j, id);
    case Consume(j, n) => ConsumeLean(e, j, n, id);
    case StopRead(j) => StopLean(e, j, id);
    case DropReader(j) => StopLean(e, j, id);
    case SendQueued => WriteLean(e, 0, id);
    case SendCredit(j) => WriteLean(e, j, id);
    case Receive(f, queued, room) => ReceiveLean(e, f, queued, room, id);
    case Reject(p, room) => ErrorLean(e, ProblemCode(p), ProblemReason(p), room, id);
    case CloseSession => StopLean(e, 0, id);
  }

  // ---- When a receive queue can overflow ----

  /** The next frame for a finds its receive queue full. */
  predicate Overflows(s: System) {
    && !s.a.closed && s.seenByA < |s.b.sent| && s.b.sent[s.seenByA].Stream?
    && StreamViolation(s.a, s.b.sent[s.seenByA].id, s.b.sent[s.seenByA].data) == Some((3, "receive queue full"))
  }

  lemma EffectLean(t: System, m: Move, flipped: bool, id: StreamId)
    requires Inv(t) && LeanAt(t.a, id)
    ensures Effect(t, m, flipped).Some? ==> LeanAt(Step(t.a, Effect(t, m, flipped).value), id)
  {
    hide Inv, LeanAt, Step;
    var eff := Effect(t, m, flipped);
    if eff.Some? {
      if eff.value.Receive? { NextFrameLean(t); }
      StepLean(t.a, eff.value, id);
    }
  }

  lemma NextFrameLean(t: System)
    requires Inv(t) && t.seenByA < |t.b.sent|
    ensures var f := t.b.sent[t.seenByA]; f.Stream? && f.data == [] ==> f.fin
  {
    hide Inv, SeenView, SentView, Observe, Before, Header, Fits;
    NextFrame(t, 0);
  }

  lemma {:induction false} PlayLean(la: Limits, lb: Limits, moves: seq<Move>, flipped: bool, id: StreamId)
    requires Valid(la) && Valid(lb)
    ensures LeanAt(Facing(Play(Start(la, lb), moves), flipped).a, id)
  {
    if moves != [] {
      hide LeanAt, Inv, Move1, Facing, Effect, Valid;
      var front, m := moves[..|moves| - 1], moves[|moves| - 1];
      var s := Play(Start(la, lb), front);
      PlayLean(la, lb, front, flipped, id);
      Reached(la, lb, front, flipped);
      Moved(s, m, flipped);
      EffectLean(Facing(s, flipped), m, flipped, id);
    }
  }

  lemma QueueWithinWindow(e: Endpoint, id: StreamId)
    requires AllOk(e) && LeanAt(e, id) && id in e.streams && !e.streams[id].stopped && id in e.readers
    ensures |e.readers[id].queue| <= e.limits.initialStreamWindow
  {
    hide Fold, Known, Local, FlowInv, NoFin, CanSend, Ready, FinOnlyLast, Queued, LeanAt;
    assert StreamOk(e, id);
    LeanLengthAt(e, id);
  }

  lemma LeanLengthAt(e: Endpoint, id: StreamId)
    requires StreamOk(e, id) && LeanAt(e, id) && id in e.streams && !e.streams[id].stopped && id in e.readers
    ensures |e.readers[id].queue| <= |Queued(e.readers[id].queue)|
  {
    assert NoFin(e.readers[id].queue) by {
      hide Fold, Known, Local, FlowInv, ReaderInv, NoFin, CanSend, Ready, Queued, Arrived;
    }
    LeanLength(e.readers[id].queue);
  }

  /** Honest data never fills a receive queue that is longer than the window. */
  lemma NeverOverflows(la: Limits, lb: Limits, moves: seq<Move>, flipped: bool)
    requires Valid(la) && Valid(lb)
             && Ours(la, lb, flipped).recvEventQueueLen > Ours(la, lb, flipped).initialStreamWindow
    ensures !Overflows(Facing(Play(Start(la, lb), moves), flipped))
  {
    var s := Facing(Play(Start(la, lb), moves), flipped);
    if Overflows(s) {
      var id := s.b.sent[s.seenByA].id;
      Reached(la, lb, moves, flipped);
      PlayLean(la, lb, moves, flipped, id);
      hide Play, Facing, Inv, LeanAt;
      OkOf(s);
      hide AllOk;
      QueueWithinWindow(s.a, id);
    }
  }

  // ---- A run that overflows ----

  function ByteMoves(j: StreamId): (moves: seq<Move>) {
    Writing(j, [0]) + [Deliver(true, true, true)]
  }

  lemma PileOne(s: System, j: StreamId, k: nat)
    requires Valid(s.a.limits) && Valid(s.b.limits) && Piled(s, j, k)
             && k < s.a.limits.recvEventQueueLen && k < s.a.limits.initialStreamWindow
    ensures var r := Play(s, ByteMoves(j));
            Piled(r, j, k + 1) && r.a.limits == s.a.limits && r.b.limits == s.b.limits
  {
    hide Play, Wrote, Writing, Step, SameRole;
    PlayConcat(s, Writing(j, [0]), [Deliver(true, true, true)]);
    WritingPlayed(s, j, [0]);
    PlayOne(s.(b := Wrote(s.b, j, [0])), Deliver(true, true, true));
    DataWritten(s.b, j, [0], s.a.limits.initialStreamWindow, k);
    PileHere(s, Wrote(s.b, j, [0]), j, k);
  }

  lemma PileHere(s: System, b: Endpoint, j: StreamId, k: nat)
    requires Valid(s.a.limits) && Piled(s, j, k)
             && k < s.a.limits.recvEventQueueLen && k < s.a.limits.initialStreamWindow
    requires b.sent == s.b.sent + [Stream(j, [0], false)] && b.outbound == []
    requires j in b.sendFlows && b.sendFlows[j] == SendFlow(s.a.limits.initialStreamWindow, k + 1, [], false)
    ensures var r := DeliverA(s.(b := b), true, true); Piled(r, j, k + 1) && r.a.limits == s.a.limits && r.b == b
  {
    hide ProtocolError, Step, SameRole;
    assert b.sent[s.seenByA] == Stream(j, [0], false);
    StepForm(s.a, Receive(Stream(j, [0], false), true, true));
    assert StreamViolation(s.a, j, [0]).None?;
  }

  function Piling(j: StreamId, k: nat): (moves: seq<Move>) {
    if k == 0 then ANNOUNCING + CREDITING else Piling(j, k - 1) + ByteMoves(j)
  }

  lemma {:induction false} Piles(server: bool, la: Limits, lb: Limits, k: nat)
    requires Valid(la) && Valid(lb) && k <= la.recvEventQueueLen && k <= la.initialStreamWindow
    ensures var j := FirstUni(!server);
            var s := Play(Opening(server, la, lb), Piling(j, k));
            Piled(s, j, k) && s.a.limits == la && s.b.limits == lb
  {
    hide Piled, Play, Valid, FirstUni, ByteMoves;
    var s0, j := Opening(server, la, lb), FirstUni(!server);
    if k == 0 {
      FirstStreamCredited(server, la, lb);
    } else {
      Piles(server, la, lb, k - 1);
      PileOne(Play(s0, Piling(j, k - 1)), j, k - 1);
      PlayConcat(s0, Piling(j, k - 1), ByteMoves(j));
    }
  }

  function Finishing(j: StreamId): (moves: seq<Move>) {
    [Act(false, QueueFin(j)), Act(false, SendQueued)]
  }

  lemma FinMoves(s: System, j: StreamId)
    ensures Play(s, Finishing(j)) == s.(b := DoSendQueued(DoQueueFin(s.b, j)))
  {
    hide Step, DoQueueFin, DoSendQueued, Play, SameRole;
    StepForm(s.b, QueueFin(j));
    StepForm(DoQueueFin(s.b, j), SendQueued);
    PlayTwo(s, Act(false, QueueFin(j)), Act(false, SendQueued));
  }

  lemma FinOverflows(s: System, j: StreamId)
    requires Valid(s.a.limits) && Piled(s, j, s.a.limits.recvEventQueueLen)
    requires s.a.limits.recvEventQueueLen <= s.a.limits.initialStreamWindow
    ensures Overflows(Play(s, Finishing(j)))
  {
    hide Play;
    FinMoves(s, j);
    var b1 := DoQueueFin(s.b, j);
    assert b1.outbound == [Stream(j, [], true)] && b1.sent == s.b.sent;
    assert DoSendQueued(b1).sent == s.b.sent + [Stream(j, [], true)];
  }

  predicate CanOverflow(la: Limits, lb: Limits, moves: seq<Move>, flipped: bool) {
    Overflows(Facing(Play(Start(la, lb), moves), flipped))
  }

  /** For either side, and whatever the limits of its peer: honest endpoints can end its session by a full receive
      queue if and only if its queue is no longer than its window. The run: one-byte writes to a reader that does not
      read, and then a FIN. */
  lemma OverflowIff(la: Limits, lb: Limits, flipped: bool)
    requires Valid(la) && Valid(lb)
    ensures (exists moves :: CanOverflow(la, lb, moves, flipped))
            <==> Ours(la, lb, flipped).recvEventQueueLen <= Ours(la, lb, flipped).initialStreamWindow
  {
    hide Play, Overflows, Valid, Piled, Facing, FirstUni, BySide;
    var ours, theirs := Ours(la, lb, flipped), Theirs(la, lb, flipped);
    if ours.recvEventQueueLen <= ours.initialStreamWindow {
      var s0, j := Opening(flipped, ours, theirs), FirstUni(!flipped);
      var m := Piling(j, ours.recvEventQueueLen);
      Piles(flipped, ours, theirs, ours.recvEventQueueLen);
      FinOverflows(Play(s0, m), j);
      PlayConcat(s0, m, Finishing(j));
      EitherSide(la, lb, m + Finishing(j), flipped);
      assert CanOverflow(la, lb, BySide(m + Finishing(j), flipped), flipped);
    } else {
      forall moves ensures !CanOverflow(la, lb, moves, flipped) { NeverOverflows(la, lb, moves, flipped); }
    }
  }
}
