/** The receive registry. Opens from the peer respect `maxOpenStreams`; a local bidirectional open does not check
    it, so the registry can grow past the limit. This module says exactly when it does, and what follows. */
module Registry {
  import opened VarInts
  import opened Frames
  import opened SessionLimits
  import opened Endpoints
  import opened EndpointInvariant
  import opened EndpointTheorems

  predicate IsOpen(f: Frame) {
    f.OpenUni? || f.OpenBi?
  }

  // ---- Which steps enter a stream ----

  lemma QueueCreditStreams(e: Endpoint, j: StreamId, maximum: nat)
    ensures QueueCredit(e, j, maximum).streams.Keys <= e.streams.Keys
  {
    hide Pruned;
  }

  lemma ConsumeStreams(e: Endpoint, j: StreamId, n: nat)
    ensures DoConsume(e, j, n).streams.Keys <= e.streams.Keys
  {
    hide QueueCredit, Target;
    if j in e.readers && 0 < n <= |e.readers[j].pending| {
      var rd1 := Handed(e.readers[j], n);
      var target := Target(e.limits.initialStreamWindow, rd1.consumed);
      var e1 := Raised(e, j, rd1.(granted := target));
      QueueCreditStreams(e1, j, target);
      assert e1.streams.Keys == e.streams.Keys;
    }
  }

  lemma StopStreams(e: Endpoint, j: StreamId)
    ensures DoStopRead(e, j).streams.Keys == e.streams.Keys && DoDropReader(e, j).streams.Keys == e.streams.Keys
  {
    if j in e.streams { assert e.streams[j := e.streams[j].(stopped := true)].Keys == e.streams.Keys; }
  }

  lemma SendStreams(e: Endpoint, j: StreamId, data: seq<Byte>)
    ensures DoReserve(e, j, data).streams == e.streams && DoRelease(e, j).streams == e.streams
    ensures DoCommit(e, j).streams == e.streams && DoQueueFin(e, j).streams == e.streams
    ensures DoRemoveFlow(e, j).streams == e.streams && DoDropWriter(e, j).streams == e.streams
  {
    hide DoCommit, DoQueueFin, Min;
    PublishedStreams(e, j);
  }

  lemma PublishedStreams(e: Endpoint, j: StreamId)
    ensures DoCommit(e, j).streams == e.streams && DoQueueFin(e, j).streams == e.streams
  {
  }

  lemma ControlStreams(e: Endpoint, j: StreamId, code: nat)
    ensures DoQueueReset(e, j, code).streams == e.streams && DoQueueStop(e, j, code).streams == e.streams
    ensures DoSendQueued(e).streams == e.streams && DoSendCredit(e, j).streams == e.streams
  {
  }

  lemma AcceptStreams(e: Endpoint, j: StreamId)
    ensures DoAcceptUni(e).streams == e.streams && DoAcceptBi(e).streams == e.streams
            && DoPopEvent(e, j).streams == e.streams
  {
  }

  lemma OpenUniStreams(e: Endpoint, queued: bool)
    ensures DoOpenUni(e, queued).streams == e.streams
  {
    hide NewId;
  }

  lemma ErrorStreams(e: Endpoint, code: nat, reason: string, room: bool)
    ensures ProtocolError(e, code, reason, room).streams == map[]
  {
    hide Ascii;
  }

  lemma DataStreams(e: Endpoint, j: StreamId, data: seq<Byte>, fin: bool, room: bool)
    ensures ReceiveStream(e, j, data, fin, room).streams.Keys <= e.streams.Keys
  {
    hide ProtocolError;
    var v := StreamViolation(e, j, data);
    if v.Some? { ErrorStreams(e, v.value.0, v.value.1, room); }
  }

  lemma QuietStreams(e: Endpoint, f: Frame, queued: bool, room: bool)
    requires !IsOpen(f)
    ensures HandleFrame(e, f, queued, room).streams.Keys <= e.streams.Keys
  {
    hide ProtocolError, ReceiveStream, IsRetiredDirection, Max;
    ErrorStreams(e, 1, "reset on unknown stream", room);
    ErrorStreams(e, 1, "stop on unknown stream", room);
    if f.Stream? { DataStreams(e, f.id, f.data, f.fin, room); }
  }

  /** Only a local bidirectional open and an open from the peer enter a stream. */
  lemma StepShrinks(e: Endpoint, a: Action)
    requires !a.OpenBiStream? && !(a.Receive? && IsOpen(a.frame))
    ensures Step(e, a).streams.Keys <= e.streams.Keys
  {
    hide *;
    StepForm(e, a);
    match a
    case OpenUniStream(queued) => OpenUniStreams(e, queued);
    case Reserve(j, data) => SendStreams(e, j, data);
    case Commit(j) => SendStreams(e, j, []);
    case Release(j) => SendStreams(e, j, []);
    case QueueFin(j) => SendStreams(e, j, []);
    case RemoveFlow(j) => SendStreams(e, j, []);
    case DropWriter(j) => SendStreams(e, j, []);
    case QueueReset(j, code) => ControlStreams(e, j, code);
    case AcceptUni => AcceptStreams(e, 0);
    case AcceptBi => AcceptStreams(e, 0);
    case PopEvent(j) => AcceptStreams(e, j);
    case QueueStop(j, code) => ControlStreams(e, j, code);
    case Consume(j, n) => ConsumeStreams(e, j, n);
    case StopRead(j) => StopStreams(e, j);
    case DropReader(j) => StopStreams(e, j);
    case SendQueued => ControlStreams(e, 0, 0);
    case SendCredit(j) => ControlStreams(e, j, 0);
    case Receive(f, queued, room) => if !e.closed { QuietStreams(e, f, queued, room); }
    case Reject(p, room) => ErrorStreams(e, ProblemCode(p), ProblemReason(p), room);
    case CloseSession => ClosedStreams(e);
    case _ =>
  }

  lemma ClosedStreams(e: Endpoint)
    ensures CloseAll(e).streams.Keys <= e.streams.Keys
  {
  }

  /** The identifier that the next local bidirectional open enters, if it gets that far. */
  function NextBi(e: Endpoint): (r: Option<StreamId>) {
    var got := NewId(e.nextBi, e.isServer, Bi);
    if e.closed || got.None? || !SendSlotFree(e, got.value) then None else got
  }

  lemma OpenBiStreams(e: Endpoint, queued: bool, credited: bool)
    ensures DoOpenBi(e, queued, credited).streams.Keys
            == e.streams.Keys + (if queued && credited && NextBi(e).Some? then {NextBi(e).value} else {})
  {
    hide NewId, NewReader, SendSlotFree, RegisterRecv, Enqueue;
    if NextBi(e).Some? {
      RegisteredKeys(RegisterSend(e.(nextBi := e.nextBi + 1), NextBi(e).value), NextBi(e).value);
      QueuesKeepStreams(RegisterRecv(RegisterSend(e.(nextBi := e.nextBi + 1), NextBi(e).value), NextBi(e).value),
          OpenBi(NextBi(e).value), InitialCredit(e, NextBi(e).value));
      QueueKeepsStreams(e.(nextBi := e.nextBi + 1), OpenBi(NextBi(e).value));
    }
  }

  lemma QueueKeepsStreams(e: Endpoint, f: Frame)
    ensures Enqueue(e, f).streams == e.streams
  {
  }

  lemma RegisteredKeys(e: Endpoint, id: StreamId)
    ensures RegisterRecv(e, id).streams.Keys == e.streams.Keys + {id}
  {
  }

  lemma QueuesKeepStreams(e: Endpoint, f: Frame, g: Frame)
    ensures Enqueue(Enqueue(e, f), g).streams == e.streams
  {
  }

  /** An open from the peer enters its stream only while there is a slot. */
  lemma PeerOpenStreams(e: Endpoint, j: StreamId, dir: Dir, queued: bool, room: bool)
    ensures var r := ReceiveOpen(e, j, dir, queued, room).streams.Keys;
            r <= e.streams.Keys || (r == e.streams.Keys + {j} && |e.streams| < e.limits.maxOpenStreams)
  {
    hide OpenViolation, ProtocolError, Admit, DirOf, Counter;
    if OpenViolation(e, j, dir).Some? {
      ErrorStreams(e, 1, OpenViolation(e, j, dir).value, room);
    } else {
      AdmitStreams(PassPeerFrontier(e, j), j, queued, room);
    }
  }

  lemma HandOverStreams(e: Endpoint, j: StreamId)
    ensures HandOver(e, j).streams.Keys == e.streams.Keys + {j}
  {
    hide DirOf, NewReader;
  }

  lemma AdmitStreams(e: Endpoint, j: StreamId, queued: bool, room: bool)
    ensures var r := Admit(e, j, queued, room).streams.Keys;
            r <= e.streams.Keys || (r == e.streams.Keys + {j} && |e.streams| < e.limits.maxOpenStreams)
  {
    hide ProtocolError, HandOverViolation, HandOver;
    var e1 := if queued then Enqueue(e, InitialCredit(e, j)) else e;
    HandOverStreams(e1, j);
    ErrorStreams(e, 3, "too many open streams", room);
    ErrorStreams(e, 1, "duplicate stream open", room);
    if HandOverViolation(e, j).Some? { ErrorStreams(e1, 3, HandOverViolation(e, j).value, room); }
  }

  // ---- The exact condition, for a step and for a run ----

  /** A local bidirectional open that succeeds with every receive slot taken. */
  predicate Overfull(e: Endpoint, a: Action) {
    a.OpenBiStream? && a.queued && a.credited && NextBi(e).Some? && |e.streams| == e.limits.maxOpenStreams
  }

  lemma NextBiIsNew(e: Endpoint)
    requires AllOk(e) && NextBi(e).Some?
    ensures NextBi(e).value !in e.streams
  {
    var j := NextBi(e).value;
    assert StreamOk(e, j);
    hide StreamOk, AllOk, NewId, Known;
    HeldIsKnown(e, j);
    if Known(e, j) { UnknownAllocation(e, Bi, j, j); }
  }

  /** From a registry within its limit, a step leaves it exactly by a local bidirectional open with all slots taken. */
  lemma StepStreams(e: Endpoint, a: Action)
    requires AllOk(e) && |e.streams| <= e.limits.maxOpenStreams
    ensures |Step(e, a).streams| > e.limits.maxOpenStreams <==> Overfull(e, a)
  {
    hide AllOk, DoOpenBi, HandleFrame, NextBi;
    if a.OpenBiStream? {
      OpenBiStreams(e, a.queued, a.credited);
      if NextBi(e).Some? { NextBiIsNew(e); }
    } else if a.Receive? && IsOpen(a.frame) {
      OpenFrameStreams(e, a);
    } else {
      StepShrinks(e, a);
      SubsetCardinality(Step(e, a).streams.Keys, e.streams.Keys);
    }
  }

  lemma OpenFrameStreams(e: Endpoint, a: Action)
    requires a.Receive? && IsOpen(a.frame) && |e.streams| <= e.limits.maxOpenStreams
    ensures |Step(e, a).streams| <= e.limits.maxOpenStreams
  {
    hide ReceiveOpen;
    var j, dir := a.frame.id, if a.frame.OpenUni? then Uni else Bi;
    var r := ReceiveOpen(e, j, dir, a.queued, a.room).streams.Keys;
    PeerOpenStreams(e, j, dir, a.queued, a.room);
    if r <= e.streams.Keys { SubsetCardinality(r, e.streams.Keys); }
  }

  /** The states a schedule passes through. */
  function At(server: bool, lim: Limits, schedule: seq<Action>, n: nat): (e: Endpoint)
    requires n <= |schedule|
  {
    Run(Fresh(server, lim), schedule[..n])
  }

  predicate Within(server: bool, lim: Limits, schedule: seq<Action>) {
    forall n :: 0 <= n <= |schedule| ==> |At(server, lim, schedule, n).streams| <= lim.maxOpenStreams
  }

  predicate NeverOverfull(server: bool, lim: Limits, schedule: seq<Action>) {
    forall n :: 0 <= n < |schedule| ==> !Overfull(At(server, lim, schedule, n), schedule[n])
  }

  lemma AtNext(server: bool, lim: Limits, schedule: seq<Action>, n: nat)
    requires n < |schedule| && Valid(lim)
    ensures At(server, lim, schedule, n + 1) == Step(At(server, lim, schedule, n), schedule[n])
    ensures AllOk(At(server, lim, schedule, n)) && At(server, lim, schedule, n).limits == lim
    ensures Bounded(At(server, lim, schedule, n))
  {
    hide Step, AllOk, Bounded, Valid;
    assert schedule[..n + 1][..n] == schedule[..n];
    FreshKeeps(server, lim);
    RunKeeps(Fresh(server, lim), schedule[..n]);
    RunBounded(server, lim, schedule[..n]);
  }

  lemma {:induction false} WithinUpTo(server: bool, lim: Limits, schedule: seq<Action>, n: nat)
    requires Valid(lim) && NeverOverfull(server, lim, schedule) && n <= |schedule|
    ensures |At(server, lim, schedule, n).streams| <= lim.maxOpenStreams
    decreases n
  {
    hide Step, AllOk, Bounded, Valid, Overfull;
    if n == 0 {
      assert schedule[..0] == [];
      hide At;
    } else {
      hide At;
      WithinUpTo(server, lim, schedule, n - 1);
      AtNext(server, lim, schedule, n - 1);
      StepStreams(At(server, lim, schedule, n - 1), schedule[n - 1]);
    }
  }

  /** Over a whole run, whatever the peer sends: the registry stays within its limit if and only if no local
      bidirectional open succeeds with every receive slot taken. */
  lemma RunStreams(server: bool, lim: Limits, schedule: seq<Action>)
    requires Valid(lim)
    ensures Within(server, lim, schedule) <==> NeverOverfull(server, lim, schedule)
  {
    hide Step, AllOk, Bounded, Valid, Overfull, At;
    if NeverOverfull(server, lim, schedule) {
      forall n | 0 <= n <= |schedule| ensures |At(server, lim, schedule, n).streams| <= lim.maxOpenStreams {
        WithinUpTo(server, lim, schedule, n);
      }
    } else {
      var n :| 0 <= n < |schedule| && Overfull(At(server, lim, schedule, n), schedule[n]);
      AtNext(server, lim, schedule, n);
      if |At(server, lim, schedule, n).streams| <= lim.maxOpenStreams {
        StepStreams(At(server, lim, schedule, n), schedule[n]);
        assert |At(server, lim, schedule, n + 1).streams| > lim.maxOpenStreams;
      }
    }
  }

  // ---- Running out of credit slots ----

  /** Reading closes the session: the pending-credit map has no slot left for a new grant. */
  predicate SlotShutdown(e: Endpoint, a: Action) {
    a.Consume? && !e.closed && Step(e, a).closed
  }

  lemma ShutdownNeedsExcess(e: Endpoint, a: Action)
    requires Bounded(e) && SlotShutdown(e, a)
    ensures |e.streams| > e.limits.maxOpenStreams
  {
    hide QueueCredit, Target;
    var j, n := a.id, a.n;
    var rd1 := Handed(e.readers[j], n);
    var target := Target(e.limits.initialStreamWindow, rd1.consumed);
    var e1 := Raised(e, j, rd1.(granted := target));
    CreditSlots(e1, j, target);
    assert e1.streams.Keys == e.streams.Keys;
  }

  /** So a run without such an open never ends for want of a credit slot. */
  lemma NoSlotShutdown(server: bool, lim: Limits, schedule: seq<Action>, n: nat)
    requires Valid(lim) && NeverOverfull(server, lim, schedule) && n < |schedule|
    ensures !SlotShutdown(At(server, lim, schedule, n), schedule[n])
  {
    hide Step, AllOk, Bounded, Valid, Overfull, At, SlotShutdown;
    AtNext(server, lim, schedule, n);
    WithinUpTo(server, lim, schedule, n);
    if SlotShutdown(At(server, lim, schedule, n), schedule[n]) {
      ShutdownNeedsExcess(At(server, lim, schedule, n), schedule[n]);
    }
  }

  lemma PassedStreams(e: Endpoint, id: StreamId)
    ensures PassPeerFrontier(e, id).streams == e.streams && PassPeerFrontier(e, id).limits == e.limits
  {
    hide DirOf, Counter;
  }
}
