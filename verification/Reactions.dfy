/** What a session makes of any frame of any peer: which frames end it, with which code and with what said to the peer,
    in terms of identifiers, counters and limits; and what the others change. */
module Reactions {
  import opened VarInts
  import opened Frames
  import opened SessionLimits
  import opened Endpoints
  import opened Views
  import opened EndpointInvariant
  import opened EndpointTheorems
  import opened TwoParty
  import opened Exchanges

  // ---- The rules of the protocol ----

  /** How far the counters of a kind of stream have come: those of streams that the identifier's initiator opened. */
  function OpenedBelow(e: Endpoint, id: StreamId): (n: nat) {
    match (id % 2 == (if e.isServer then 1 else 0), id / 2 % 2 == 1)
    case (true, true) => e.nextUni
    case (true, false) => e.nextBi
    case (false, true) => e.nextPeerUni
    case (false, false) => e.nextPeerBi
  }

  /** An identifier of ours: its lowest bit names the initiator. */
  predicate OfOurs(e: Endpoint, id: StreamId) {
    id % 2 == (if e.isServer then 1 else 0)
  }

  /** An identifier of a stream that only its initiator sends on: the next bit names the direction. */
  predicate OneWay(id: StreamId) {
    id / 2 % 2 == 1
  }

  /** Frames that break the order of the protocol: an open of the wrong kind, of the wrong initiator or below an earlier
      one; a reset or stop of a direction that does not exist, or of a stream that was never opened. */
  predicate Misplaced(e: Endpoint, f: Frame) {
    match f
    case OpenUni(id) => !OneWay(id) || OfOurs(e, id) || id / 4 < e.nextPeerUni
    case OpenBi(id) => OneWay(id) || OfOurs(e, id) || id / 4 < e.nextPeerBi
    case ResetStream(id, _) => (OneWay(id) && OfOurs(e, id)) || id / 4 >= OpenedBelow(e, id)
    case StopSending(id, _) => (OneWay(id) && !OfOurs(e, id)) || id / 4 >= OpenedBelow(e, id)
    case _ => false
  }

  /** Data beyond the frame limit, for a stream that is not open for it, or beyond the limit granted. */
  predicate Overrun(e: Endpoint, f: Frame) {
    && f.Stream?
    && (|| |f.data| > e.limits.maxStreamDataPerFrame || f.id !in e.streams
        || e.streams[f.id].received + |f.data| > e.streams[f.id].maxData)
  }

  /** No receive slot, no send slot for the other direction, or no room in the accept or receive queue. */
  predicate Exhausts(e: Endpoint, f: Frame) {
    match f
    case OpenUni(id) =>
      |e.streams| >= e.limits.maxOpenStreams || |e.acceptUni| >= e.limits.acceptUniQueueLen
    case OpenBi(id) =>
      || |e.streams| >= e.limits.maxOpenStreams || |e.sendFlows| >= e.limits.maxOpenStreams
      || |e.acceptBi| >= e.limits.acceptBiQueueLen
    case Stream(id, _, _) =>
      && id in e.streams && !e.streams[id].stopped && id in e.readers
      && |e.readers[id].queue| >= e.limits.recvEventQueueLen
    case _ => false
  }

  /** The code with which a frame ends the session, if it does. */
  function CodeFor(e: Endpoint, f: Frame): (code: Option<nat>) {
    if Misplaced(e, f) then Some(1) else if Overrun(e, f) then Some(2) else if Exhausts(e, f) then Some(3) else None
  }

  // ---- Which frames end a session, and how ----

  /** What outlives a session: streams that wait to be accepted, and what their readers and those handed out hold. */
  predicate Keeps(e: Endpoint, r: Endpoint) {
    r.acceptUni == e.acceptUni && r.acceptBi == e.acceptBi && r.readers == e.readers
  }

  /** A closing frame is terminal: everything is closed, nothing is said in return, and no code is recorded. */
  lemma CloseIsTerminal(e: Endpoint, code: nat, reason: seq<Byte>, queued: bool, room: bool)
    requires !e.closed
    ensures var r := Step(e, Receive(ConnectionClose(code, reason), queued, room));
            && r.closed && r.streams == map[] && r.sendFlows == map[] && r.pendingCredit == map[]
            && r.error == e.error && r.outbound == e.outbound && r.sent == e.sent && Keeps(e, r)
  {
    hide Step;
    StepForm(e, Receive(ConnectionClose(code, reason), queued, room));
  }

  /** After a protocol error: everything is closed, the code recorded, and the peer told if there is room. */
  predicate EndedWith(e: Endpoint, r: Endpoint, code: nat, room: bool) {
    && r.closed && r.streams == map[] && r.sendFlows == map[] && r.pendingCredit == map[] && r.error == Some(code)
    && r.sent == e.sent && e.outbound <= r.outbound && Keeps(e, r)
    && (room ==> |r.outbound| > |e.outbound| && r.outbound[|r.outbound| - 1].ConnectionClose?
                 && r.outbound[|r.outbound| - 1].code == code)
    && (!room ==> forall f :: f in r.outbound[|e.outbound|..] ==> !f.ConnectionClose?)
  }

  lemma ErrorEnds(e: Endpoint, code: nat, reason: string, room: bool)
    ensures EndedWith(e, ProtocolError(e, code, reason, room), code, room)
  {
    hide Ascii;
  }

  /** An error after one frame was queued that closes nothing. */
  lemma LateErrorEnds(e: Endpoint, f: Frame, code: nat, reason: string, room: bool)
    requires !f.ConnectionClose?
    ensures EndedWith(e, ProtocolError(Enqueue(e, f), code, reason, room), code, room)
  {
    hide Ascii;
  }

  lemma MovedEnds(e: Endpoint, e1: Endpoint, r: Endpoint, code: nat, room: bool)
    requires EndedWith(e1, r, code, room) && e1.sent == e.sent && e1.outbound == e.outbound && Keeps(e, e1)
    ensures EndedWith(e, r, code, room)
  {
  }

  lemma Bits(e: Endpoint, id: StreamId)
    ensures OneWay(id) <==> DirOf(id) == Uni
    ensures OfOurs(e, id) <==> Local(e, id)
    ensures id / 4 < OpenedBelow(e, id) <==> Known(e, id)
  {
  }

  lemma OpenMisplaced(e: Endpoint, id: StreamId, dir: Dir)
    ensures OpenViolation(e, id, dir).Some? <==> Misplaced(e, if dir.Uni? then OpenUni(id) else OpenBi(id))
  {
    Bits(e, id);
  }

  /** An open of any peer. */
  lemma OpenVerdict(e: Endpoint, id: StreamId, dir: Dir, queued: bool, room: bool)
    requires AllOk(e) && !e.closed
    ensures var f, r := if dir.Uni? then OpenUni(id) else OpenBi(id), ReceiveOpen(e, id, dir, queued, room);
            if CodeFor(e, f).Some? then EndedWith(e, r, CodeFor(e, f).value, room) else !r.closed && r.error == e.error
  {
    hide AllOk, OpenViolation, HandOverViolation, HandOver, ProtocolError, Enqueue, PassPeerFrontier, Misplaced;
    hide EndedWith;
    hide Steady, SameWire, InitialCredit;
    OpenMisplaced(e, id, dir);
    if OpenViolation(e, id, dir).Some? {
      ErrorEnds(e, 1, OpenViolation(e, id, dir).value, room);
    } else {
      AcceptedIsNew(e, id, dir);
      var e1 := PassPeerFrontier(e, id);
      FrontierPassed(e, id);
      AdmitVerdict(e1, id, dir, queued, room);
      var r := Admit(e1, id, queued, room);
      if ExhaustsOpen(e1, dir) { MovedEnds(e, e1, r, 3, room); }
    }
  }

  /** Neither slot nor room for a new stream. */
  predicate ExhaustsOpen(e: Endpoint, dir: Dir) {
    || |e.streams| >= e.limits.maxOpenStreams
    || (if dir.Uni? then |e.acceptUni| >= e.limits.acceptUniQueueLen
        else |e.sendFlows| >= e.limits.maxOpenStreams || |e.acceptBi| >= e.limits.acceptBiQueueLen)
  }

  lemma AcceptedIsNew(e: Endpoint, id: StreamId, dir: Dir)
    requires AllOk(e) && OpenViolation(e, id, dir).None?
    ensures DirOf(id) == dir && id !in e.streams && id !in e.sendFlows
  {
    hide AllOk, StreamOk, DirOf, Known;
    StreamOf(e, id);
    if id in e.streams || id in e.sendFlows { HeldIsKnown(e, id); }
  }

  lemma FrontierPassed(e: Endpoint, id: StreamId)
    ensures var r := PassPeerFrontier(e, id);
            && r == e.(nextPeerUni := r.nextPeerUni, nextPeerBi := r.nextPeerBi)
            && (if DirOf(id).Uni? then r.nextPeerUni == id / 4 + 1 && r.nextPeerBi == e.nextPeerBi
                else r.nextPeerBi == id / 4 + 1 && r.nextPeerUni == e.nextPeerUni)
  {
    hide DirOf, Steady;
    if DirOf(id).Uni? {
      assert PassPeerFrontier(e, id) == e.(nextPeerUni := Counter(id) + 1);
    } else {
      assert PassPeerFrontier(e, id) == e.(nextPeerBi := Counter(id) + 1);
    }
  }

  lemma AdmitVerdict(e: Endpoint, id: StreamId, dir: Dir, queued: bool, room: bool)
    requires DirOf(id) == dir && id !in e.streams && id !in e.sendFlows && !e.closed
    ensures var r := Admit(e, id, queued, room);
            if ExhaustsOpen(e, dir) then EndedWith(e, r, 3, room) else !r.closed && r.error == e.error
  {
    hide HandOver, ProtocolError, Enqueue, EndedWith, Steady, SameWire, InitialCredit, DirOf, HandOverViolation;
    Refusals(e, id, dir);
    var credit := InitialCredit(e, id);
    ErrorEnds(e, 3, "too many open streams", room);
    CreditClosesNothing(e, id);
    if HandOverViolation(e, id).Some? {
      ErrorEnds(e, 3, HandOverViolation(e, id).value, room);
      LateErrorEnds(e, credit, 3, HandOverViolation(e, id).value, room);
    } else {
      HandsOver(e, id);
      HandsOver(Enqueue(e, credit), id);
    }
  }

  lemma Refusals(e: Endpoint, id: StreamId, dir: Dir)
    requires DirOf(id) == dir && id !in e.sendFlows
    ensures |e.streams| >= e.limits.maxOpenStreams || HandOverViolation(e, id).Some? <==> ExhaustsOpen(e, dir)
  {
    hide DirOf;
  }

  lemma CreditClosesNothing(e: Endpoint, id: StreamId)
    ensures !InitialCredit(e, id).ConnectionClose?
    ensures var r := Enqueue(e, InitialCredit(e, id)); r.closed == e.closed && r.error == e.error
  {
  }

  lemma HandsOver(e: Endpoint, id: StreamId)
    ensures HandOver(e, id).closed == e.closed && HandOver(e, id).error == e.error
  {
    hide HandOver, DirOf, Steady;
    HandOverFields(e, id);
  }

  /** Data of any peer. */
  lemma DataOutcome(e: Endpoint, f: Frame, room: bool)
    requires AllOk(e) && !e.closed && f.Stream?
    ensures var r := ReceiveStream(e, f.id, f.data, f.fin, room);
            if CodeFor(e, f).Some? then EndedWith(e, r, CodeFor(e, f).value, room) else !r.closed && r.error == e.error
  {
    hide AllOk, ProtocolError, EndedWith, StreamViolation;
    DataRules(e, f);
    var v := StreamViolation(e, f.id, f.data);
    if v.Some? { ErrorEnds(e, v.value.0, v.value.1, room); }
  }

  lemma DataRules(e: Endpoint, f: Frame)
    requires AllOk(e) && f.Stream?
    ensures var v := StreamViolation(e, f.id, f.data);
            CodeFor(e, f) == (if v.Some? then Some(v.value.0) else None)
  {
    if f.id in e.streams { WithinVarint(e, f.id); }
    hide AllOk;
  }

  lemma WithinVarint(e: Endpoint, id: StreamId)
    requires AllOk(e) && id in e.streams
    ensures e.streams[id].maxData <= MAX
  {
    hide StreamOk;
    StreamOf(e, id);
    LimitOf(e, id);
  }

  lemma LimitOf(e: Endpoint, id: StreamId)
    requires StreamOk(e, id) && id in e.streams
    ensures e.streams[id].maxData <= MAX && CanReceive(id, e.isServer)
  {
    hide Fold, Known, Local, FlowInv, ReaderInv, Arrived, NoFin, Ready, CanReceive;
  }

  /** Resets and stops of any peer: harmless for every direction of every stream that was ever opened. */
  lemma EndVerdict(e: Endpoint, f: Frame, queued: bool, room: bool)
    requires AllOk(e) && !e.closed && (f.ResetStream? || f.StopSending?)
    ensures var r := HandleFrame(e, f, queued, room);
            if Misplaced(e, f) then EndedWith(e, r, 1, room)
            else r.error == e.error && (r.closed <==> f.StopSending? && f.id in e.sendFlows && !queued)
  {
    hide AllOk, ProtocolError, EndedWith, Misplaced, IsRetiredDirection;
    EndRules(e, f);
    ErrorEnds(e, 1, "reset on unknown stream", room);
    ErrorEnds(e, 1, "stop on unknown stream", room);
  }

  lemma EndRules(e: Endpoint, f: Frame)
    requires AllOk(e) && (f.ResetStream? || f.StopSending?)
    ensures Misplaced(e, f) <==> !IsRetiredDirection(e, f.id, f.ResetStream?)
    ensures f.ResetStream? && f.id in e.streams ==> !Misplaced(e, f)
    ensures f.StopSending? && f.id in e.sendFlows ==> !Misplaced(e, f)
  {
    hide AllOk, Known, Local, DirOf;
    Bits(e, f.id);
    HeldDirections(e, f.id);
  }

  lemma HeldDirections(e: Endpoint, id: StreamId)
    requires AllOk(e)
    ensures id in e.streams ==> Known(e, id) && !(DirOf(id).Uni? && Local(e, id))
    ensures id in e.sendFlows ==> Known(e, id) && !(DirOf(id).Uni? && !Local(e, id))
  {
    hide AllOk, StreamOk, Known;
    StreamOf(e, id);
    if id in e.streams || id in e.sendFlows { HeldIsKnown(e, id); }
  }

  /** For every open session and every frame of any peer: the code, and whether the session ends. */
  lemma Verdict(e: Endpoint, f: Frame, queued: bool, room: bool)
    requires AllOk(e) && !e.closed
    ensures var r := Step(e, Receive(f, queued, room));
            if CodeFor(e, f).Some? then EndedWith(e, r, CodeFor(e, f).value, room)
            else && r.error == e.error
                 && (r.closed <==> f.ConnectionClose? || (f.StopSending? && f.id in e.sendFlows && !queued))
  {
    hide AllOk, Step, ReceiveOpen, ReceiveStream, HandleFrame, EndedWith, CodeFor;
    StepForm(e, Receive(f, queued, room));
    Branches(e, f, queued, room);
    Codes(e, f);
    match f
    case OpenUni(id) => OpenVerdict(e, id, Uni, queued, room);
    case OpenBi(id) => OpenVerdict(e, id, Bi, queued, room);
    case Stream(_, _, _) => DataOutcome(e, f, room);
    case ResetStream(_, _) => EndVerdict(e, f, queued, room);
    case StopSending(_, _) => EndVerdict(e, f, queued, room);
    case MaxStreamData(_, _) =>
    case ConnectionClose(code, reason) => CloseIsTerminal(e, code, reason, queued, room);
  }

  lemma Branches(e: Endpoint, f: Frame, queued: bool, room: bool)
    ensures f.OpenUni? ==> HandleFrame(e, f, queued, room) == ReceiveOpen(e, f.id, Uni, queued, room)
    ensures f.OpenBi? ==> HandleFrame(e, f, queued, room) == ReceiveOpen(e, f.id, Bi, queued, room)
    ensures f.Stream? ==> HandleFrame(e, f, queued, room) == ReceiveStream(e, f.id, f.data, f.fin, room)
    ensures f.MaxStreamData? ==> var r := HandleFrame(e, f, queued, room); r.closed == e.closed && r.error == e.error
  {
    hide ReceiveOpen, ReceiveStream, ProtocolError, AnswerStop, IsRetiredDirection, RemoveRecv, CloseAll;
  }

  lemma Codes(e: Endpoint, f: Frame)
    ensures f.ResetStream? || f.StopSending? ==> CodeFor(e, f) == if Misplaced(e, f) then Some(1) else None
    ensures f.MaxStreamData? || f.ConnectionClose? ==> CodeFor(e, f).None?
  {
    hide OpenedBelow;
  }

  /** Messages that are no frames: code 1 for bytes that do not decode and for text, code 2 for too many of them. */
  lemma RejectVerdict(e: Endpoint, problem: Problem, room: bool)
    requires !e.closed
    ensures EndedWith(e, Step(e, Reject(problem, room)), if problem.MessageTooLarge? then 2 else 1, room)
  {
    hide Step, ProtocolError, EndedWith;
    StepForm(e, Reject(problem, room));
    ErrorEnds(e, ProblemCode(problem), ProblemReason(problem), room);
  }

  // ---- What the others change ----

  /** A well-placed open for which there is room: the frontier passes it, the window is announced, a flow without credit
      is there if it can be sent on, and it waits at the end of its accept queue. */
  lemma OpenEffect(e: Endpoint, id: StreamId, dir: Dir)
    requires AllOk(e) && !e.closed && CodeFor(e, if dir.Uni? then OpenUni(id) else OpenBi(id)).None?
    ensures var r := Step(e, Receive(if dir.Uni? then OpenUni(id) else OpenBi(id), true, true));
            && r.streams == e.streams[id := RecvState(false, 0, e.limits.initialStreamWindow)]
            && r.outbound == e.outbound + [MaxStreamData(id, e.limits.initialStreamWindow)]
            && id in r.readers && r.readers[id].queue == [] && r.readers[id].pending == [] && !r.readers[id].finished
            && (dir.Uni? ==> && r.acceptUni == e.acceptUni + [id] && r.acceptBi == e.acceptBi
                             && r.sendFlows == e.sendFlows && r.nextPeerUni == id / 4 + 1)
            && (dir.Bi? ==> && r.acceptBi == e.acceptBi + [id] && r.acceptUni == e.acceptUni
                            && r.sendFlows == e.sendFlows[id := SendFlow(0, 0, [], false)]
                                && r.nextPeerBi == id / 4 + 1)
  {
    hide AllOk, Step, ReceiveOpen, HandleFrame, HandOver, Enqueue, PassPeerFrontier, DirOf, Steady, OpenViolation;
    hide CodeFor;
    var f := if dir.Uni? then OpenUni(id) else OpenBi(id);
    Verdict(e, f, true, true);
    StepForm(e, Receive(f, true, true));
    Branches(e, f, true, true);
    NotMisplaced(e, f);
    OpenMisplaced(e, id, dir);
    AcceptedIsNew(e, id, dir);
    TakenForm(e, id, dir);
    FrontierPassed(e, id);
    CreditQueuedHere(e, id);
    HandOverFields(Enqueue(PassPeerFrontier(e, id), InitialCredit(e, id)), id);
  }

  lemma NotMisplaced(e: Endpoint, f: Frame)
    requires CodeFor(e, f).None?
    ensures !Misplaced(e, f)
  {
  }

  lemma CreditQueuedHere(e: Endpoint, id: StreamId)
    ensures var e1 := PassPeerFrontier(e, id);
            Enqueue(e1, InitialCredit(e, id))
            == e1.(outbound := e1.outbound + [MaxStreamData(id, e.limits.initialStreamWindow)])
  {
    hide PassPeerFrontier;
  }

  /** A stop of a live flow retires it and is answered with a reset of the same code; a reset retires the receive
      direction and leaves what arrived readable. */
  lemma EndEffect(e: Endpoint, id: StreamId, code: nat, room: bool)
    requires !e.closed
    ensures id in e.sendFlows ==>
              Step(e, Receive(StopSending(id, code), true, room))
              == e.(sendFlows := e.sendFlows - {id}, outbound := e.outbound + [ResetStream(id, code)])
    ensures id in e.streams ==> Step(e, Receive(ResetStream(id, code), true, room)) == e.(streams := e.streams - {id})
  {
    hide Step, ProtocolError, IsRetiredDirection, Steady;
    StepForm(e, Receive(StopSending(id, code), true, room));
    StepForm(e, Receive(ResetStream(id, code), true, room));
  }

  /** Credit raises the limit of its flow to the largest announced, and touches nothing else. */
  lemma CreditEffect(e: Endpoint, id: StreamId, max: nat, queued: bool, room: bool)
    requires !e.closed
    ensures var r := Step(e, Receive(MaxStreamData(id, max), queued, room));
            && r == e.(sendFlows := r.sendFlows) && r.sendFlows.Keys == e.sendFlows.Keys
            && forall k :: k in e.sendFlows ==>
                 r.sendFlows[k] == e.sendFlows[k].(maxData := if k == id && max > e.sendFlows[k].maxData then max
                                                             else e.sendFlows[k].maxData)
  {
    hide Step, Steady;
    StepForm(e, Receive(MaxStreamData(id, max), queued, room));
  }

  // ---- Identifiers of own streams ----

  /** How many opens of a direction a schedule asks for while the session is open. */
  function Asked(e: Endpoint, schedule: seq<Action>, dir: Dir): (n: nat)
    decreases |schedule|
  {
    if schedule == [] then 0
    else
      var front, a := schedule[..|schedule| - 1], schedule[|schedule| - 1];
      Asked(e, front, dir)
      + if !Run(e, front).closed && (if dir.Uni? then a.OpenUniStream? else a.OpenBiStream?) then 1 else 0
  }

  lemma {:induction false} OpensCount(server: bool, lim: Limits, schedule: seq<Action>)
    ensures var e, e0 := Run(Fresh(server, lim), schedule), Fresh(server, lim);
            e.nextUni == Asked(e0, schedule, Uni) && e.nextBi == Asked(e0, schedule, Bi)
    decreases |schedule|
  {
    if schedule != [] {
      hide Step;
      OpensCount(server, lim, schedule[..|schedule| - 1]);
      StepCounts(Run(Fresh(server, lim), schedule[..|schedule| - 1]), schedule[|schedule| - 1]);
    }
  }

  /** Every open of an open session spends a counter, whatever becomes of it, and nothing else does. */
  lemma StepCounts(e: Endpoint, a: Action)
    ensures var r := Step(e, a);
            && r.nextUni == e.nextUni + (if a.OpenUniStream? && !e.closed then 1 else 0)
            && r.nextBi == e.nextBi + (if a.OpenBiStream? && !e.closed then 1 else 0)
  {
    hide Step, DoOpenUni, DoOpenBi, HandleFrame;
    StepForm(e, a);
    match a
    case OpenUniStream(queued) => UniCounts(e, queued);
    case OpenBiStream(queued, credited) => BiCounts(e, queued, credited);
    case Receive(f, queued, room) => FrameCounts(e, f, queued, room);
    case Consume(id, n) => ReadCounts(e, id, n);
    case _ =>
      if OfSender(a) { SendCounts(e, a); } else if OfReader(a) { ReaderCounts(e, a); } else { OtherCounts(e, a); }
  }

  lemma UniCounts(e: Endpoint, queued: bool)
    ensures var r := DoOpenUni(e, queued); r.nextUni == e.nextUni + (if e.closed then 0 else 1) && r.nextBi == e.nextBi
  {
    hide NewId, SendSlotFree, Steady;
  }

  lemma BiCounts(e: Endpoint, queued: bool, credited: bool)
    ensures var r := DoOpenBi(e, queued, credited);
            r.nextBi == e.nextBi + (if e.closed then 0 else 1) && r.nextUni == e.nextUni
  {
    hide NewId, SendSlotFree, Steady, NewReader;
  }

  lemma ReadCounts(e: Endpoint, id: StreamId, n: nat)
    ensures var r := DoConsume(e, id, n); r.nextUni == e.nextUni && r.nextBi == e.nextBi
  {
    hide Target, Pruned, Steady, SaturatingAdd;
  }

  lemma FrameCounts(e: Endpoint, f: Frame, queued: bool, room: bool)
    ensures var r := HandleFrame(e, f, queued, room); r.nextUni == e.nextUni && r.nextBi == e.nextBi
  {
    hide ReceiveOpen, ReceiveStream, IsRetiredDirection, Steady, ProtocolError;
    Branches(e, f, queued, room);
    ErrorCounts(e, 1, "reset on unknown stream", room);
    ErrorCounts(e, 1, "stop on unknown stream", room);
    if f.OpenUni? { OpenCounts(e, f.id, Uni, queued, room); }
    if f.OpenBi? { OpenCounts(e, f.id, Bi, queued, room); }
    if f.Stream? { DataCounts(e, f.id, f.data, f.fin, room); }
  }

  lemma DataCounts(e: Endpoint, id: StreamId, data: seq<Byte>, fin: bool, room: bool)
    ensures var r := ReceiveStream(e, id, data, fin, room); r.nextUni == e.nextUni && r.nextBi == e.nextBi
  {
    hide StreamViolation, Steady, Ascii;
  }

  lemma OpenCounts(e: Endpoint, id: StreamId, dir: Dir, queued: bool, room: bool)
    ensures var r := ReceiveOpen(e, id, dir, queued, room); r.nextUni == e.nextUni && r.nextBi == e.nextBi
  {
    hide OpenViolation, Admit, ProtocolError, PassPeerFrontier, Steady, SameWire, DirOf;
    FrontierPassed(e, id);
    if OpenViolation(e, id, dir).Some? { ErrorCounts(e, 1, OpenViolation(e, id, dir).value, room); }
    AdmitCounts(PassPeerFrontier(e, id), id, queued, room);
  }

  lemma ErrorCounts(e: Endpoint, code: nat, reason: string, room: bool)
    ensures var r := ProtocolError(e, code, reason, room); r.nextUni == e.nextUni && r.nextBi == e.nextBi
  {
    hide Ascii;
  }

  lemma AdmitCounts(e: Endpoint, id: StreamId, queued: bool, room: bool)
    ensures var r := Admit(e, id, queued, room); r.nextUni == e.nextUni && r.nextBi == e.nextBi
  {
    hide HandOverViolation, HandOver, ProtocolError, Steady, SameWire, InitialCredit, DirOf;
    var e1 := if queued then Enqueue(e, InitialCredit(e, id)) else e;
    ErrorCounts(e, 3, "too many open streams", room);
    ErrorCounts(e, 1, "duplicate stream open", room);
    if HandOverViolation(e, id).Some? { ErrorCounts(e1, 3, HandOverViolation(e, id).value, room); }
    HandOverFields(e1, id);
  }

  predicate OfSender(a: Action) {
    a.Reserve? || a.Commit? || a.Release? || a.QueueFin? || a.RemoveFlow? || a.QueueReset? || a.DropWriter?
  }

  lemma SendCounts(e: Endpoint, a: Action)
    requires OfSender(a)
    ensures var r := Step(e, a); r.nextUni == e.nextUni && r.nextBi == e.nextBi
  {
    hide Step, Steady, SameRole;
    StepForm(e, a);
  }

  predicate OfReader(a: Action) {
    a.PopEvent? || a.StopRead? || a.QueueStop? || a.DropReader?
  }

  lemma PopCounts(e: Endpoint, id: StreamId)
    ensures var r := DoPopEvent(e, id); r.nextUni == e.nextUni && r.nextBi == e.nextBi
  {
    hide Steady;
  }

  lemma StopCounts(e: Endpoint, id: StreamId)
    ensures var r := DoStopRead(e, id); r.nextUni == e.nextUni && r.nextBi == e.nextBi
    ensures var r := DoDropReader(e, id); r.nextUni == e.nextUni && r.nextBi == e.nextBi
  {
    hide Steady;
  }

  lemma ReaderCounts(e: Endpoint, a: Action)
    requires OfReader(a)
    ensures var r := Step(e, a); r.nextUni == e.nextUni && r.nextBi == e.nextBi
  {
    hide Step, Steady, SameRole, DoPopEvent, DoStopRead, DoDropReader;
    StepForm(e, a);
    PopCounts(e, a.id);
    StopCounts(e, a.id);
  }

  lemma OtherCounts(e: Endpoint, a: Action)
    requires !a.OpenUniStream? && !a.OpenBiStream? && !a.Receive? && !a.Consume? && !OfSender(a) && !OfReader(a)
    ensures var r := Step(e, a); r.nextUni == e.nextUni && r.nextBi == e.nextBi
  {
    hide Step, Steady, SameRole, ProtocolError, ProblemReason;
    StepForm(e, a);
    if a.Reject? { ErrorCounts(e, ProblemCode(a.problem), ProblemReason(a.problem), a.room); }
  }

  /** So the stream that an open gets is numbered by the opens asked for before it, failed ones included. */
  lemma NthOpen(server: bool, lim: Limits, schedule: seq<Action>, dir: Dir, j: StreamId)
    requires Valid(lim) && j <= MAX
    requires var e := Run(Fresh(server, lim), schedule);
             && !e.closed && |e.sendFlows| < lim.maxOpenStreams
             && j / 4 == Asked(Fresh(server, lim), schedule, dir) && OfOurs(e, j) && (OneWay(j) <==> dir.Uni?)
    ensures var e := Run(Fresh(server, lim), schedule);
            var r := Step(e, if dir.Uni? then OpenUniStream(true) else OpenBiStream(true, true));
            && r.sendFlows == e.sendFlows[j := SendFlow(0, 0, [], false)]
            && r.outbound == e.outbound + (if dir.Uni? then [OpenUni(j)]
                                           else [OpenBi(j), MaxStreamData(j, lim.initialStreamWindow)])
            && (dir.Bi? ==> r.streams == e.streams[j := RecvState(false, 0, lim.initialStreamWindow)])
  {
    hide Run, Step, AllOk, DoOpenUni, DoOpenBi, Asked, Known, Valid;
    var e := Run(Fresh(server, lim), schedule);
    OpensCount(server, lim, schedule);
    FreshKeeps(server, lim);
    RunKeeps(Fresh(server, lim), schedule);
    Bits(e, j);
    IdBijection(Frontier(e, true, dir), e.isServer, dir, j);
    NeverSeen(e, dir, j);
    StepForm(e, if dir.Uni? then OpenUniStream(true) else OpenBiStream(true, true));
    OpenWrites(e, dir, j);
  }

  lemma NeverSeen(e: Endpoint, dir: Dir, j: StreamId)
    requires AllOk(e) && NewId(Frontier(e, true, dir), e.isServer, dir) == Some(j)
    ensures j !in e.sendFlows && j !in e.streams
  {
    hide AllOk, StreamOk, Known, NewId;
    StreamOf(e, j);
    if j in e.streams || j in e.sendFlows {
      HeldIsKnown(e, j);
      UnknownAllocation(e, dir, j, j);
    }
  }

  lemma OpenWrites(e: Endpoint, dir: Dir, j: StreamId)
    requires !e.closed && NewId(Frontier(e, true, dir), e.isServer, dir) == Some(j) && SendSlotFree(e, j)
    ensures dir.Uni? ==> var r := DoOpenUni(e, true);
              r.sendFlows == e.sendFlows[j := SendFlow(0, 0, [], false)] && r.outbound == e.outbound + [OpenUni(j)]
    ensures dir.Bi? ==> var r := DoOpenBi(e, true, true);
              && r.sendFlows == e.sendFlows[j := SendFlow(0, 0, [], false)]
              && r.streams == e.streams[j := RecvState(false, 0, e.limits.initialStreamWindow)]
              && r.outbound == e.outbound + [OpenBi(j), MaxStreamData(j, e.limits.initialStreamWindow)]
  {
    hide NewId, Steady, NewReader;
  }

  /** Data that is taken: it counts, it waits at the end of its reader's queue unless the stream was stopped, and with
      the FIN its receive direction is over. */
  lemma DataEffect(e: Endpoint, id: StreamId, data: seq<Byte>, fin: bool, queued: bool, room: bool)
    requires AllOk(e) && !e.closed && CodeFor(e, Stream(id, data, fin)).None?
    ensures var r := Step(e, Receive(Stream(id, data, fin), queued, room));
            && id in e.streams && r == e.(streams := r.streams, readers := r.readers)
            && (if fin then r.streams == e.streams - {id}
                else r.streams == e.streams[id := e.streams[id].(received := e.streams[id].received + |data|)])
            && (if e.streams[id].stopped || id !in e.readers then r.readers == e.readers
                else r.readers == e.readers[id :=
                    e.readers[id].(queue := e.readers[id].queue + [RecvEvent(data, fin)])])
  {
    hide AllOk, Step, StreamViolation, CodeFor, Steady, ProtocolError;
    var f := Stream(id, data, fin);
    StepForm(e, Receive(f, queued, room));
    DataRules(e, f);
    NotOverrun(e, f);
  }

  lemma NotOverrun(e: Endpoint, f: Frame)
    requires CodeFor(e, f).None? && f.Stream?
    ensures f.id in e.streams
  {
  }

  /** A read takes the oldest event; a reader with nothing left is told of the end once its stream is gone, and not
      before. */
  lemma PopEffect(e: Endpoint, id: StreamId)
    requires id in e.readers && e.readers[id].pending == [] && !e.readers[id].finished
    ensures var rd, r := e.readers[id], Step(e, PopEvent(id));
            && r == e.(readers := r.readers) && id in r.readers
            && (rd.queue != [] ==>
                  && r.readers[id].pending == rd.queue[0].data && r.readers[id].queue == rd.queue[1..]
                  && r.readers[id].finished == rd.queue[0].fin)
            && (rd.queue == [] ==> r.readers[id] == rd.(finished := id !in e.streams))
  {
    hide Step, Steady;
    StepForm(e, PopEvent(id));
  }
}
