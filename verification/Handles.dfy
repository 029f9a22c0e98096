/** Send handles: what one relies on between its own operations, whatever else the session does. */
module Handles {
  import opened VarInts
  import opened Frames
  import opened Endpoints
  import opened EndpointTheorems

  /** FIN is queued by `Finish` alone, and credit is held for the head of a suspended write alone. */
  predicate HandleOk(e: Endpoint, id: StreamId, finished: bool, busy: bool, rest: seq<Byte>) {
    && id in e.writers
    && (id in e.sendFlows ==>
          && (e.sendFlows[id].finQueued ==> finished)
          && e.sendFlows[id].reserved <= rest
          && (!busy ==> e.sendFlows[id].reserved == []))
  }

  /** Actions that spend the credit of a stream or end its sending, all performed through its handle. */
  predicate OfHandle(a: Action, id: StreamId) {
    (a.Reserve? || a.Commit? || a.Release? || a.QueueFin? || a.DropWriter?) && a.id == id
  }

  /** A send flow is left alone, except that its limit may rise or that it may be removed. */
  predicate FlowLeft(e: Endpoint, e': Endpoint, id: StreamId) {
    && (id in e.writers ==> id in e'.writers)
    && (id in e'.sendFlows ==>
          && id in e.sendFlows && e.sendFlows[id].maxData <= e'.sendFlows[id].maxData
          && e'.sendFlows[id] == e.sendFlows[id].(maxData := e'.sendFlows[id].maxData))
  }

  lemma OtherOpens(e: Endpoint, dir: Dir, queued: bool, credited: bool, id: StreamId)
    requires Known(e, id)
    ensures FlowLeft(e, if dir.Uni? then DoOpenUni(e, queued) else DoOpenBi(e, queued, credited), id)
  {
    hide Known, NewId, RegisterSend, RegisterRecv, SendSlotFree;
    var got := NewId(Frontier(e, true, dir), e.isServer, dir);
    if got.Some? {
      UnknownAllocation(e, dir, got.value, id);
      var e1 := if dir.Uni? then e.(nextUni := e.nextUni + 1) else e.(nextBi := e.nextBi + 1);
      OtherRegisters(e1, got.value, id);
      OtherRegisters(RegisterSend(e1, got.value), got.value, id);
    }
  }

  lemma OtherRegisters(e: Endpoint, j: StreamId, id: StreamId)
    requires id != j
    ensures FlowLeft(e, RegisterSend(e, j), id) && FlowLeft(e, RegisterRecv(e, j), id)
  {
  }

  lemma OtherAdmits(e: Endpoint, j: StreamId, queued: bool, room: bool, id: StreamId)
    requires id != j
    ensures FlowLeft(e, Admit(e, j, queued, room), id)
  {
    hide HandOverViolation, HandOver, ProtocolError, RegisterRecv;
    var e1 := if queued then Enqueue(e, InitialCredit(e, j)) else e;
    Closing(e, 3, "too many open streams", room, id);
    Closing(e, 1, "duplicate stream open", room, id);
    if HandOverViolation(e, j).Some? { Closing(e1, 3, HandOverViolation(e, j).value, room, id); }
    HandedOver(e1, j, id);
  }

  lemma HandedOver(e: Endpoint, j: StreamId, id: StreamId)
    requires id != j
    ensures FlowLeft(e, HandOver(e, j), id)
  {
    hide DirOf;
  }

  lemma ClosingAll(e: Endpoint, id: StreamId)
    ensures FlowLeft(e, CloseAll(e), id)
  {
  }

  lemma Closing(e: Endpoint, code: nat, reason: string, room: bool, id: StreamId)
    ensures FlowLeft(e, ProtocolError(e, code, reason, room), id)
  {
    hide Ascii;
  }

  lemma OtherOpened(e: Endpoint, j: StreamId, dir: Dir, queued: bool, room: bool, id: StreamId)
    requires AllOk(e) && id in e.writers
    ensures FlowLeft(e, ReceiveOpen(e, j, dir, queued, room), id)
  {
    hide AllOk, FlowLeft, Admit, Known, OpenViolation, ProtocolError;
    if OpenViolation(e, j, dir).Some? {
      Closing(e, 1, OpenViolation(e, j, dir).value, room, id);
    } else {
      AcceptedOpenIsNew(e, j, dir, id);
      OtherAdmits(PassPeerFrontier(e, j), j, queued, room, id);
      Passed(e, j, queued, room, id);
    }
  }

  lemma Passed(e: Endpoint, j: StreamId, queued: bool, room: bool, id: StreamId)
    requires FlowLeft(PassPeerFrontier(e, j), Admit(PassPeerFrontier(e, j), j, queued, room), id)
    ensures FlowLeft(e, Admit(PassPeerFrontier(e, j), j, queued, room), id)
  {
    hide Admit;
  }

  lemma OtherData(e: Endpoint, j: StreamId, data: seq<Byte>, fin: bool, room: bool, id: StreamId)
    ensures FlowLeft(e, ReceiveStream(e, j, data, fin, room), id)
  {
    hide StreamViolation, ProtocolError;
    var v := StreamViolation(e, j, data);
    if v.Some? { Closing(e, v.value.0, v.value.1, room, id); }
  }

  lemma AnyAnswer(e: Endpoint, j: StreamId, code: nat, queued: bool, id: StreamId)
    ensures FlowLeft(e, AnswerStop(e, j, code, queued), id)
  {
  }

  lemma OtherReceives(e: Endpoint, f: Frame, queued: bool, room: bool, id: StreamId)
    requires AllOk(e) && id in e.writers
    ensures FlowLeft(e, HandleFrame(e, f, queued, room), id)
  {
    hide AllOk, ProtocolError, ReceiveOpen, ReceiveStream, AnswerStop, Known, IsRetiredDirection;
    Closing(e, 1, "reset on unknown stream", room, id);
    Closing(e, 1, "stop on unknown stream", room, id);
    match f
    case OpenUni(j) => OtherOpened(e, j, Uni, queued, room, id);
    case OpenBi(j) => OtherOpened(e, j, Bi, queued, room, id);
    case Stream(j, data, fin) => OtherData(e, j, data, fin, room, id);
    case StopSending(j, code) => AnyAnswer(e, j, code, queued, id);
    case _ =>
  }

  lemma OtherSends(e: Endpoint, j: StreamId, data: seq<Byte>, id: StreamId)
    requires id != j
    ensures FlowLeft(e, DoReserve(e, j, data), id) && FlowLeft(e, DoRelease(e, j), id)
  {
  }

  lemma OtherPublishes(e: Endpoint, j: StreamId, id: StreamId)
    requires id != j
    ensures FlowLeft(e, DoCommit(e, j), id) && FlowLeft(e, DoQueueFin(e, j), id)
  {
  }

  lemma OtherDrops(e: Endpoint, j: StreamId, id: StreamId)
    requires id != j
    ensures FlowLeft(e, DoDropWriter(e, j), id)
  {
  }

  lemma AnySends(e: Endpoint, j: StreamId, code: nat, id: StreamId)
    ensures FlowLeft(e, DoRemoveFlow(e, j), id) && FlowLeft(e, DoQueueReset(e, j, code), id)
  {
  }

  lemma AnyWrites(e: Endpoint, j: StreamId, id: StreamId)
    ensures FlowLeft(e, DoSendQueued(e), id) && FlowLeft(e, DoSendCredit(e, j), id)
  {
  }

  lemma AnyReads(e: Endpoint, j: StreamId, code: nat, id: StreamId)
    ensures FlowLeft(e, DoPopEvent(e, j), id) && FlowLeft(e, DoQueueStop(e, j, code), id)
  {
  }

  lemma AnyStops(e: Endpoint, j: StreamId, id: StreamId)
    ensures FlowLeft(e, DoStopRead(e, j), id) && FlowLeft(e, DoDropReader(e, j), id)
  {
  }

  lemma OtherReads(e: Endpoint, j: StreamId, n: nat, id: StreamId)
    ensures FlowLeft(e, DoConsume(e, j, n), id)
  {
    hide Pruned, Target;
  }

  lemma Accepting(e: Endpoint, id: StreamId)
    ensures FlowLeft(e, e, id) && FlowLeft(e, DoAcceptUni(e), id) && FlowLeft(e, DoAcceptBi(e), id)
  {
  }

  lemma WriterKnown(e: Endpoint, id: StreamId)
    requires AllOk(e) && id in e.writers
    ensures Known(e, id)
  {
    hide Known;
    HeldIsKnown(e, id);
  }

  lemma OfOthers(a: Action, id: StreamId)
    requires !OfHandle(a, id)
    ensures a.Reserve? || a.Commit? || a.Release? || a.QueueFin? || a.DropWriter? ==> a.id != id
  {
  }

  lemma StepLeft(e: Endpoint, a: Action, id: StreamId)
    requires AllOk(e) && id in e.writers && !OfHandle(a, id)
    ensures FlowLeft(e, Step(e, a), id)
  {
    hide *;
    WriterKnown(e, id);
    Accepting(e, id);
    OfOthers(a, id);
    StepForm(e, a);
    match a
    case OpenUniStream(queued) => OtherOpens(e, Uni, queued, true, id);
    case OpenBiStream(queued, credited) => OtherOpens(e, Bi, queued, credited, id);
    case Reserve(j, data) => OtherSends(e, j, data, id);
    case Commit(j) => OtherPublishes(e, j, id);
    case Release(j) => OtherSends(e, j, [], id);
    case QueueFin(j) => OtherPublishes(e, j, id);
    case DropWriter(j) => OtherDrops(e, j, id);
    case RemoveFlow(j) => AnySends(e, j, 0, id);
    case QueueReset(j, code) => AnySends(e, j, code, id);
    case AcceptUni =>
    case AcceptBi =>
    case PopEvent(j) => AnyReads(e, j, 0, id);
    case StopRead(j) => AnyStops(e, j, id);
    case QueueStop(j, code) => AnyReads(e, j, code, id);
    case DropReader(j) => AnyStops(e, j, id);
    case Consume(j, n) => OtherReads(e, j, n, id);
    case SendQueued => AnyWrites(e, 0, id);
    case SendCredit(j) => AnyWrites(e, j, id);
    case Receive(f, queued, room) => OtherReceives(e, f, queued, room, id);
    case Reject(problem, room) => Closing(e, ProblemCode(problem), ProblemReason(problem), room, id);
    case CloseSession => ClosingAll(e, id);
  }

  /** Whatever else happens, a send handle stays sound: between two turns of a suspended write nothing but the
      handle touches the credit it holds, so no byte is accounted twice and FIN cannot overtake the write. */
  lemma HandleStable(e: Endpoint, a: Action, id: StreamId, finished: bool, busy: bool, rest: seq<Byte>)
    requires AllOk(e) && HandleOk(e, id, finished, busy, rest) && !OfHandle(a, id)
    ensures FlowLeft(e, Step(e, a), id) && HandleOk(Step(e, a), id, finished, busy, rest)
  {
    hide Step;
    StepLeft(e, a, id);
  }
}
