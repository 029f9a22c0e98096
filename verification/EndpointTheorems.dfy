/** Consequences of the endpoint invariant over whole runs, against an arbitrary peer. */
module EndpointTheorems {
  import opened VarInts
  import opened Frames
  import opened SessionLimits
  import opened Endpoints
  import opened Views
  import opened EndpointInvariant

  ghost predicate AllOk(e: Endpoint) {
    Valid(e.limits) && forall id :: StreamOk(e, id)
  }

  /** In every run, whatever the peer sends, every stream keeps its invariant. */
  lemma {:induction false} RunKeeps(e: Endpoint, schedule: seq<Action>)
    requires AllOk(e)
    ensures AllOk(Run(e, schedule))
  {
    hide StreamOk, Step, Valid;
    if schedule != [] {
      var mid, a := Run(e, schedule[..|schedule| - 1]), schedule[|schedule| - 1];
      RunKeeps(e, schedule[..|schedule| - 1]);
      forall id ensures StreamOk(Step(mid, a), id) { StepKeeps(mid, a, id); }
    }
  }

  // ---- The actions one at a time, for proofs that follow a given schedule ----

  lemma ValidOf(e: Endpoint)
    requires AllOk(e)
    ensures Valid(e.limits)
  {
  }

  lemma FreshKeeps(server: bool, lim: Limits)
    requires Valid(lim)
    ensures AllOk(Fresh(server, lim))
  {
    hide StreamOk, Valid;
    forall id ensures StreamOk(Fresh(server, lim), id) { FreshOk(server, lim, id); }
  }

  lemma FreshOk(server: bool, lim: Limits, id: StreamId)
    ensures StreamOk(Fresh(server, lim), id)
  {
  }

  // ---- Order of frames in the outgoing log ----

  predicate EndsStream(f: Frame, id: StreamId) {
    (f.ResetStream? && f.id == id) || (f.Stream? && f.id == id && f.fin)
  }

  /** The view up to and including position i is one step of the automaton. */
  lemma FoldAt(id: StreamId, server: bool, log: seq<Frame>, i: nat)
    requires i < |log|
    ensures Fold(id, server, log[..i + 1]) == Observe(id, server, Fold(id, server, log[..i]), log[i])
    ensures Before(Fold(id, server, log[..i + 1]), Fold(id, server, log))
    ensures Before(Fold(id, server, log[..i]), Fold(id, server, log[..i + 1]))
  {
    hide Fold, Observe;
    assert log[..i + 1] == log[..i] + [log[i]];
    FoldAppend(id, server, log[..i], log[i]);
    FoldGrows(id, server, log, i + 1);
    FoldGrows(id, server, log[..i + 1], i);
    assert log[..i + 1][..i] == log[..i];
  }

  /** In a log that is not bad, no data follows the end of a stream. */
  lemma EndIsLast(id: StreamId, server: bool, log: seq<Frame>, i: nat, j: nat)
    requires !Fold(id, server, log).bad && i < j < |log| && EndsStream(log[i], id)
    ensures !(log[j].Stream? && log[j].id == id)
  {
    hide Fold, Ready, CanSend;
    FoldAt(id, server, log, i);
    FoldAt(id, server, log, j);
    FoldGrows(id, server, log[..j], i + 1);
    assert log[..j][..i + 1] == log[..i + 1];
  }

  /** In a log that is not bad, an endpoint names a stream of its own only after opening it. */
  lemma OpenIsFirst(id: StreamId, server: bool, log: seq<Frame>, j: nat)
    requires !Fold(id, server, log).bad && j < |log| && ByServer(id) == server
    requires (log[j].Stream? || log[j].ResetStream? || log[j].StopSending?) && log[j].id == id
    ensures exists i :: 0 <= i < j && (log[i] == OpenUni(id) || log[i] == OpenBi(id))
  {
    FoldAt(id, server, log, j);
    BegunByOpen(id, server, log[..j]);
    var i :| 0 <= i < j && (log[..j][i] == OpenUni(id) || log[..j][i] == OpenBi(id));
    assert log[i] == log[..j][i];
  }

  lemma {:induction false} BegunByOpen(id: StreamId, server: bool, log: seq<Frame>)
    requires Fold(id, server, log).begun
    ensures exists i :: 0 <= i < |log| && (log[i] == OpenUni(id) || log[i] == OpenBi(id))
  {
    var front, last := log[..|log| - 1], log[|log| - 1];
    if Fold(id, server, front).begun {
      BegunByOpen(id, server, front);
      var i :| 0 <= i < |front| && (front[i] == OpenUni(id) || front[i] == OpenBi(id));
      assert log[i] == front[i];
    } else {
      assert log[|log| - 1] == last;
    }
  }

  /** In a log that is not bad for a stream, its open comes after no open of an equal or later counter. */
  lemma OpensAscend(server: bool, log: seq<Frame>, i: nat, j: nat)
    requires i < j < |log|
    requires (log[i].OpenUni? && log[j].OpenUni?) || (log[i].OpenBi? && log[j].OpenBi?)
    requires !Fold(log[i].id, server, log).bad && !Fold(log[j].id, server, log).bad
    ensures ByServer(log[i].id) == server == ByServer(log[j].id)
    ensures Counter(log[i].id) < Counter(log[j].id)
  {
    hide Fold, DirOf, ByServer, Counter;
    FoldAt(log[i].id, server, log, i);
    FoldAt(log[j].id, server, log, i);
    FoldAt(log[j].id, server, log, j);
    FoldGrows(log[j].id, server, log[..j], i + 1);
    assert log[..j][..i + 1] == log[..i + 1];
  }

  /** Whatever the peer does: in the frames an endpoint ever enqueues, opens carry increasing counters
      of its own role, a stream of its own is named only after its open, and no data follows the FIN
      or the reset of a stream. */
  lemma OutgoingLogInOrder(server: bool, lim: Limits, schedule: seq<Action>, i: nat, j: nat)
    requires Valid(lim)
    requires i < j < |Log(Run(Fresh(server, lim), schedule))|
    ensures var log := Log(Run(Fresh(server, lim), schedule));
            && (forall id :: EndsStream(log[i], id) ==> !(log[j].Stream? && log[j].id == id))
            && ((log[i].OpenUni? && log[j].OpenUni?) || (log[i].OpenBi? && log[j].OpenBi?) ==>
                  ByServer(log[j].id) == server && Counter(log[i].id) < Counter(log[j].id))
            && ((log[j].Stream? || log[j].ResetStream? || log[j].StopSending?) && ByServer(log[j].id) == server ==>
                  exists k :: 0 <= k < j && (log[k] == OpenUni(log[j].id) || log[k] == OpenBi(log[j].id)))
  {
    hide Run, Log, Fold, EndOf, DirOf, Counter, Valid;
    FreshKeeps(server, lim);
    RunKeeps(Fresh(server, lim), schedule);
    var e := Run(Fresh(server, lim), schedule);
    var log := Log(e);
    forall id ensures !Fold(id, server, log).bad { NotBad(e, id); }
    if log[j].Stream? && EndsStream(log[i], log[j].id) { EndIsLast(log[j].id, server, log, i, j); }
    if (log[i].OpenUni? && log[j].OpenUni?) || (log[i].OpenBi? && log[j].OpenBi?) { OpensAscend(server, log, i, j); }
    if (log[j].Stream? || log[j].ResetStream? || log[j].StopSending?) && ByServer(log[j].id) == server {
      OpenIsFirst(log[j].id, server, log, j);
    }
  }

  lemma NotBad(e: Endpoint, id: StreamId)
    requires StreamOk(e, id)
    ensures !Fold(id, e.isServer, Log(e)).bad
  {
    hide Fold, EndOf, FlowInv, ReaderInv, StreamInv;
  }

  // ---- Receive window ----

  /** Whatever the peer sends and however reads are mixed: the bytes accepted on an unstopped stream are
      those consumed, pending and queued; what is buffered never exceeds one window; and the limit
      granted so far is within one window, and less than a threshold short of it. */
  lemma ReceiveWindow(server: bool, lim: Limits, schedule: seq<Action>, id: StreamId)
    requires Valid(lim)
    ensures var e := Run(Fresh(server, lim), schedule);
            id in e.streams && !e.streams[id].stopped ==>
              && id in e.readers
              && var st, rd := e.streams[id], e.readers[id];
                 && st.received == rd.consumed + |rd.pending| + |Queued(rd.queue)|
                 && |rd.pending| + |Queued(rd.queue)| <= lim.initialStreamWindow
                 && st.received <= st.maxData == rd.granted
                 && rd.granted <= Min(rd.consumed + lim.initialStreamWindow,
                     MAX) < rd.granted + lim.windowUpdateThreshold
  {
    hide Run, Fold, FlowInv, Known, Local, Queued, NoFin, FinOnlyLast;
    FreshKeeps(server, lim);
    RunKeeps(Fresh(server, lim), schedule);
    var e := Run(Fresh(server, lim), schedule);
    assert StreamOk(e, id);
  }

  // ---- Retirement ----

  /** No credit is pending for the stream, and none can be queued: it is stopped or gone. */
  predicate Quiet(e: Endpoint, id: StreamId) {
    && id !in e.pendingCredit
    && (id in e.streams ==> e.streams[id].stopped && (id in e.readers ==> e.readers[id].stopSent))
  }

  /** A known stream never gets back a receive state or send flow it lost, and a quiet one gets no credit. */
  predicate Settles(e: Endpoint, e': Endpoint, id: StreamId) {
    && Known(e', id) && e'.isServer == e.isServer
    && (id !in e.streams ==> id !in e'.streams)
    && (id !in e.sendFlows ==> id !in e'.sendFlows)
    && (Quiet(e, id) ==>
          && Quiet(e', id) && SentView(e', id).grant == SentView(e, id).grant
          && (id in e.streams && id in e'.streams ==> e'.streams[id].maxData == e.streams[id].maxData))
  }

  lemma SettlesTransitive(a: Endpoint, b: Endpoint, c: Endpoint, id: StreamId)
    requires Settles(a, b, id) && Settles(b, c, id)
    ensures Settles(a, c, id)
  {
    hide Known, SentView;
  }

  lemma EnqueueSettles(e: Endpoint, f: Frame, id: StreamId)
    requires Known(e, id) && !(f.MaxStreamData? && f.id == id)
    ensures Settles(e, Enqueue(e, f), id)
  {
    hide Fold, Known, DirOf, ByServer, Counter;
    EnqueueView(e, f, id);
    SameFrontiers(e, Enqueue(e, f), id);
  }

  lemma CloseSettles(e: Endpoint, id: StreamId)
    requires Known(e, id)
    ensures Settles(e, CloseAll(e), id)
  {
    hide Fold, Known;
    SameFrontiers(e, CloseAll(e), id);
  }

  lemma ErrorSettles(e: Endpoint, room: bool, id: StreamId)
    requires Known(e, id)
    ensures forall code, reason :: Settles(e, ProtocolError(e, code, reason, room), id)
  {
    hide Settles, Known, Ascii;
    forall code, reason ensures Settles(e, ProtocolError(e, code, reason, room), id) {
      var f := ConnectionClose(code, Ascii(reason));
      var told := if room then Enqueue(e, f) else e;
      ReflexiveSettles(e, id);
      if room { EnqueueSettles(e, f, id); }
      KnownStays(e, told, id);
      CloseSettles(told, id);
      SettlesTransitive(e, told, CloseAll(told), id);
      ErrorFieldIrrelevant(e, CloseAll(told), Some(code), id);
    }
  }

  lemma ReflexiveSettles(e: Endpoint, id: StreamId)
    requires Known(e, id)
    ensures Settles(e, e, id)
  {
  }

  lemma KnownStays(e: Endpoint, e': Endpoint, id: StreamId)
    requires Settles(e, e', id)
    ensures Known(e', id)
  {
    hide Known, Quiet;
  }

  lemma ErrorFieldIrrelevant(e: Endpoint, e': Endpoint, error: Option<nat>, id: StreamId)
    requires Settles(e, e', id)
    ensures Settles(e, e'.(error := error), id)
  {
    hide Fold, Known;
    SameFrontiers(e', e'.(error := error), id);
  }

  /** Opening a stream, by either side, concerns only streams not known before. */
  lemma OpenSettles(e: Endpoint, dir: Dir, queued: bool, credited: bool, id: StreamId)
    requires Known(e, id)
    ensures Settles(e, if dir.Uni? then DoOpenUni(e, queued) else DoOpenBi(e, queued, credited), id)
  {
    hide Settles, Known, Enqueue, RegisterSend, RegisterRecv, DirOf, ByServer, Counter, Advanced;
    ReflexiveSettles(e, id);
    if e.closed { return; }
    var n := Frontier(e, true, dir);
    var e1 := if dir.Uni? then e.(nextUni := n + 1) else e.(nextBi := n + 1);
    OpenFrontier(e, dir);
    AdvanceSettles(e, e1, true, dir, n, id);
    var got := NewId(n, e.isServer, dir);
    if got.None? || !SendSlotFree(e, got.value) || !queued { return; }
    var j := got.value;
    UnknownAllocation(e, dir, j, id);
    if dir.Bi? && !credited {
      KnownStays(e, e1, id);
      EnqueueSettles(e1, OpenBi(j), id);
      SettlesTransitive(e, e1, Enqueue(e1, OpenBi(j)), id);
      return;
    }
    var e2 := RegisterSend(e1, j);
    RegisterSettles(e1, j, id);
    SettlesTransitive(e, e1, e2, id);
    KnownStays(e, e2, id);
    if dir.Uni? {
      EnqueueSettles(e2, OpenUni(j), id);
      SettlesTransitive(e, e2, Enqueue(e2, OpenUni(j)), id);
    } else {
      RegisterSettles(e2, j, id);
      var e3 := RegisterRecv(e2, j);
      SettlesTransitive(e, e2, e3, id);
      KnownStays(e, e3, id);
      EnqueueSettles(e3, OpenBi(j), id);
      var e4 := Enqueue(e3, OpenBi(j));
      SettlesTransitive(e, e3, e4, id);
      KnownStays(e, e4, id);
      EnqueueSettles(e4, InitialCredit(e, j), id);
      SettlesTransitive(e, e4, Enqueue(e4, InitialCredit(e, j)), id);
    }
  }

  lemma AdvanceSettles(e: Endpoint, e': Endpoint, local: bool, dir: Dir, upTo: nat, id: StreamId)
    requires Known(e, id) && Advanced(e, e', local, dir, upTo)
    requires e' == e.(nextUni := e'.nextUni, nextBi := e'.nextBi,
                      nextPeerUni := e'.nextPeerUni, nextPeerBi := e'.nextPeerBi)
    ensures Settles(e, e', id) && Known(e', id)
  {
    hide Known, Fold, Advanced;
    AdvancedKnown(e, e', local, dir, upTo, id);
  }

  lemma UnknownAllocation(e: Endpoint, dir: Dir, j: StreamId, id: StreamId)
    requires Known(e, id) && NewId(Frontier(e, true, dir), e.isServer, dir) == Some(j)
    ensures id != j
  {
    IdBijection(Frontier(e, true, dir), e.isServer, dir, j);
  }

  lemma RegisterSettles(e: Endpoint, j: StreamId, id: StreamId)
    requires Known(e, id) && id != j
    ensures Settles(e, RegisterSend(e, j), id) && Settles(e, RegisterRecv(e, j), id)
    ensures Known(RegisterSend(e, j), id) && Known(RegisterRecv(e, j), id)
  {
    hide Known, Fold;
    SameFrontiers(e, RegisterSend(e, j), id);
    SameFrontiers(e, RegisterRecv(e, j), id);
  }

  lemma ReceiveOpenSettles(e: Endpoint, j: StreamId, dir: Dir, queued: bool, room: bool, id: StreamId)
    requires Known(e, id)
    ensures Settles(e, ReceiveOpen(e, j, dir, queued, room), id)
  {
    hide Settles, Known, Local, Enqueue, HandOver, ProtocolError, PassPeerFrontier, DirOf, Counter, Advanced;
    ErrorSettles(e, room, id);
    if OpenViolation(e, j, dir).Some? { return; }
    var e1 := PassPeerFrontier(e, j);
    PeerFrontier(e, j);
    PassKeepsRest(e, j);
    AdvanceSettles(e, e1, false, dir, Counter(j), id);
    AdmitSettles(e1, j, queued, room, id);
    SettlesTransitive(e, e1, Admit(e1, j, queued, room), id);
  }

  lemma PassKeepsRest(e: Endpoint, j: StreamId)
    ensures var e' := PassPeerFrontier(e, j);
            e' == e.(nextUni := e'.nextUni, nextBi := e'.nextBi,
                     nextPeerUni := e'.nextPeerUni, nextPeerBi := e'.nextPeerBi)
  {
  }

  lemma AdmitSettles(e: Endpoint, j: StreamId, queued: bool, room: bool, id: StreamId)
    requires Known(e, id) && id != j
    ensures Settles(e, Admit(e, j, queued, room), id)
  {
    hide Settles, Known, Enqueue, ProtocolError, HandOver, HandOverViolation;
    ErrorSettles(e, room, id);
    var e1 := if queued then Enqueue(e, InitialCredit(e, j)) else e;
    ReflexiveSettles(e, id);
    EnqueueSettles(e, InitialCredit(e, j), id);
    KnownStays(e, e1, id);
    ErrorSettles(e1, room, id);
    HandOverSettles(e1, j, id);
    SettlesTransitive(e, e1, HandOver(e1, j), id);
    if |e.streams| < e.limits.maxOpenStreams && j !in e.streams && HandOverViolation(e, j).Some? {
      SettlesTransitive(e, e1, ProtocolError(e1, 3, HandOverViolation(e, j).value, room), id);
    }
  }

  /** Nothing a stream can notice has changed. */
  predicate Beside(e: Endpoint, r: Endpoint, id: StreamId) {
    && r.sent == e.sent && r.outbound == e.outbound && r.nextUni == e.nextUni && r.nextBi == e.nextBi
    && r.nextPeerUni == e.nextPeerUni && r.nextPeerBi == e.nextPeerBi && r.isServer == e.isServer
    && Lookup(r.streams, id) == Lookup(e.streams, id) && Lookup(r.sendFlows, id) == Lookup(e.sendFlows, id)
    && Lookup(r.readers, id) == Lookup(e.readers, id) && r.pendingCredit == e.pendingCredit
  }

  lemma RegisterBeside(e: Endpoint, j: StreamId, id: StreamId)
    requires id != j
    ensures Beside(e, RegisterSend(e, j), id) && Beside(e, RegisterRecv(e, j), id)
  {
    hide NewReader;
  }

  lemma HandOverBeside(e: Endpoint, j: StreamId, id: StreamId)
    requires id != j
    ensures Beside(e, HandOver(e, j), id)
  {
    hide DirOf, RegisterSend, RegisterRecv, Lookup;
    RegisterBeside(e, j, id);
    RegisterBeside(RegisterRecv(e, j), j, id);
  }

  lemma HandOverSettles(e: Endpoint, j: StreamId, id: StreamId)
    requires Known(e, id) && id != j
    ensures Settles(e, HandOver(e, j), id)
  {
    hide Known, SentView, HandOver;
    HandOverBeside(e, j, id);
    SameFrontiers(e, HandOver(e, j), id);
    SameLogView(e, HandOver(e, j), id);
  }

  lemma ReceiveSettles(e: Endpoint, frame: Frame, queued: bool, room: bool, id: StreamId)
    requires Known(e, id)
    ensures Settles(e, HandleFrame(e, frame, queued, room), id)
  {
    hide Settles, Known, Local, ReceiveOpen, Accounted;
    hide RemoveRecv, ProtocolError, AnswerStop, IsRetiredDirection, CloseAll;
    ErrorSettles(e, room, id);
    ReflexiveSettles(e, id);
    match frame
    case OpenUni(j) => ReceiveOpenSettles(e, j, Uni, queued, room, id);
    case OpenBi(j) => ReceiveOpenSettles(e, j, Bi, queued, room, id);
    case Stream(j, data, fin) => if j in e.streams { RecvSideSettles(e, j, data, fin, id); }
    case ResetStream(j, _) => if j in e.streams { RecvSideSettles(e, j, [], true, id); }
    case StopSending(j, code) => AnswerSettles(e, j, code, queued, id);
    case MaxStreamData(j, max) => CreditReceivedSettles(e, j, max, id);
    case ConnectionClose(_, _) => CloseSettles(e, id);
  }

  lemma AnswerSettles(e: Endpoint, j: StreamId, code: nat, queued: bool, id: StreamId)
    requires Known(e, id)
    ensures Settles(e, AnswerStop(e, j, code, queued), id)
  {
    hide Settles, Known, Enqueue, DoRemoveFlow, CloseAll;
    FlowSideSettles(e, j, id);
    var e1 := DoRemoveFlow(e, j);
    KnownStays(e, e1, id);
    EnqueueSettles(e1, ResetStream(j, code), id);
    CloseSettles(e1, id);
    SettlesTransitive(e, e1, AnswerStop(e, j, code, queued), id);
  }

  lemma RecvSideSettles(e: Endpoint, j: StreamId, data: seq<Byte>, fin: bool, id: StreamId)
    requires Known(e, id) && j in e.streams
    ensures Settles(e, Accounted(e, j, data, fin), id) && Settles(e, RemoveRecv(e, j), id)
  {
    hide Known, Fold;
    SameFrontiers(e, Accounted(e, j, data, fin), id);
    SameFrontiers(e, RemoveRecv(e, j), id);
  }

  lemma FlowSideSettles(e: Endpoint, j: StreamId, id: StreamId)
    requires Known(e, id)
    ensures Settles(e, DoRemoveFlow(e, j), id)
  {
    hide Known, Fold;
    SameFrontiers(e, DoRemoveFlow(e, j), id);
  }

  lemma CreditReceivedSettles(e: Endpoint, j: StreamId, max: nat, id: StreamId)
    requires Known(e, id)
    ensures Settles(e, HandleFrame(e, MaxStreamData(j, max), true, true), id)
  {
    hide Known, Fold;
    SameFrontiers(e, HandleFrame(e, MaxStreamData(j, max), true, true), id);
  }

  lemma ConsumeSettles(e: Endpoint, j: StreamId, n: nat, id: StreamId)
    requires Known(e, id)
    ensures Settles(e, DoConsume(e, j, n), id)
  {
    hide Settles, Known, QueueCredit, Target, CloseAll;
    ReflexiveSettles(e, id);
    if j !in e.readers || n == 0 || n > |e.readers[j].pending| { return; }
    var rd1 := Handed(e.readers[j], n);
    var target := Target(e.limits.initialStreamWindow, rd1.consumed);
    if target <= rd1.granted || target - rd1.granted < e.limits.windowUpdateThreshold || rd1.finished || rd1.stopSent {
      ReaderSettles(e, j, rd1, id);
    } else {
      GrantSettles(e, j, rd1.(granted := target), id);
    }
  }

  lemma ReaderSettles(e: Endpoint, j: StreamId, rd: Reader, id: StreamId)
    requires Known(e, id) && j in e.readers && (e.readers[j].stopSent ==> rd.stopSent)
    ensures Settles(e, e.(readers := e.readers[j := rd]), id)
  {
    hide Known, Fold;
    SameFrontiers(e, e.(readers := e.readers[j := rd]), id);
  }

  /** A grant is out of reach of a quiet stream: its reader has sent a stop. */
  lemma GrantSettles(e: Endpoint, j: StreamId, rd: Reader, id: StreamId)
    requires Known(e, id) && j in e.readers && !e.readers[j].stopSent && !rd.stopSent
    ensures Settles(e, QueueCredit(Raised(e, j, rd), j, rd.granted), id)
  {
    hide Known, Fold, QueueCredit;
    var e1 := Raised(e, j, rd);
    QueueCreditEffect(e1, j, rd.granted, id);
    SameFrontiers(e, QueueCredit(e1, j, rd.granted), id);
  }

  lemma StepSettles(e: Endpoint, a: Action, id: StreamId)
    requires Known(e, id)
    ensures Settles(e, Step(e, a), id)
  {
    hide *;
    ReflexiveSettles(e, id);
    StepForm(e, a);
    match a
    case OpenUniStream(queued) => OpenSettles(e, Uni, queued, true, id);
    case OpenBiStream(queued, credited) => OpenSettles(e, Bi, queued, credited, id);
    case Reserve(j, data) => ReserveSettles(e, j, data, id);
    case Commit(j) => PublishSettles(e, j, false, id);
    case Release(j) => ReserveSettles(e, j, [], id);
    case QueueFin(j) => PublishSettles(e, j, true, id);
    case RemoveFlow(j) => FlowSideSettles(e, j, id);
    case QueueReset(j, code) => ControlSettles(e, j, code, id);
    case DropWriter(j) => ControlSettles(e, j, 0, id);
    case AcceptUni => AcceptSettles(e, id);
    case AcceptBi => AcceptSettles(e, id);
    case PopEvent(j) => PopSettles(e, j, id);
    case Consume(j, n) => ConsumeSettles(e, j, n, id);
    case StopRead(j) => StopSettles(e, j, true, id);
    case QueueStop(j, code) => ControlSettles(e, j, code, id);
    case DropReader(j) => StopSettles(e, j, false, id);
    case SendQueued => SendQueuedSettles(e, id);
    case SendCredit(j) => SendCreditSettles(e, j, id);
    case Receive(frame, queued, room) => ReceiveSettles(e, frame, queued, room, id);
    case Reject(problem, room) => ErrorSettles(e, room, id);
    case CloseSession => CloseSettles(e, id);
  }

  lemma QueuesSettle(e: Endpoint, uni: seq<StreamId>, bi: seq<StreamId>, id: StreamId)
    requires Known(e, id)
    ensures Settles(e, e.(acceptUni := uni, acceptBi := bi), id)
  {
    hide Known, SentView;
    SameFrontiers(e, e.(acceptUni := uni, acceptBi := bi), id);
    SameLogView(e, e.(acceptUni := uni, acceptBi := bi), id);
  }

  lemma AcceptSettles(e: Endpoint, id: StreamId)
    requires Known(e, id)
    ensures Settles(e, DoAcceptUni(e), id) && Settles(e, DoAcceptBi(e), id)
  {
    hide Known, Settles;
    ReflexiveSettles(e, id);
    if e.acceptUni != [] { QueuesSettle(e, e.acceptUni[1..], e.acceptBi, id); }
    if e.acceptBi != [] { QueuesSettle(e, e.acceptUni, e.acceptBi[1..], id); }
  }

  lemma ControlSettles(e: Endpoint, j: StreamId, code: nat, id: StreamId)
    requires Known(e, id)
    ensures Settles(e, DoQueueReset(e, j, code), id) && Settles(e, DoQueueStop(e, j, code), id)
            && Settles(e, DoDropWriter(e, j), id)
  {
    hide Settles, Known, Enqueue;
    WriterDropSettles(e, j, id);
    ReflexiveSettles(e, id);
    EnqueueSettles(e, ResetStream(j, code), id);
    EnqueueSettles(e, StopSending(j, code), id);
  }

  lemma WriterDropSettles(e: Endpoint, j: StreamId, id: StreamId)
    requires Known(e, id)
    ensures Settles(e, DoDropWriter(e, j), id)
  {
    hide Known, Fold;
    SameFrontiers(e, DoDropWriter(e, j), id);
  }

  lemma FlowSetSettles(e: Endpoint, j: StreamId, fl: SendFlow, id: StreamId)
    requires Known(e, id) && j in e.sendFlows
    ensures Settles(e, e.(sendFlows := e.sendFlows[j := fl]), id)
  {
    hide Known, Fold;
    SameFrontiers(e, e.(sendFlows := e.sendFlows[j := fl]), id);
  }

  lemma ReserveSettles(e: Endpoint, j: StreamId, data: seq<Byte>, id: StreamId)
    requires Known(e, id)
    ensures Settles(e, DoReserve(e, j, data), id) && Settles(e, DoRelease(e, j), id)
  {
    hide Settles, Known, Min;
    ReflexiveSettles(e, id);
    if j in e.sendFlows {
      FlowSetSettles(e, j, DoReserve(e, j, data).sendFlows[j], id);
      FlowSetSettles(e, j, DoRelease(e, j).sendFlows[j], id);
    }
  }

  lemma PublishSettles(e: Endpoint, j: StreamId, fin: bool, id: StreamId)
    requires Known(e, id)
    ensures Settles(e, if fin then DoQueueFin(e, j) else DoCommit(e, j), id)
  {
    hide Settles, Known, Enqueue;
    ReflexiveSettles(e, id);
    if j !in e.sendFlows { return; }
    var fl := e.sendFlows[j];
    var fl' := if fin then fl.(finQueued := true) else fl.(reserved := []);
    var f := if fin then Stream(j, [], true) else Stream(j, fl.reserved, false);
    var e1 := e.(sendFlows := e.sendFlows[j := fl']);
    FlowSetSettles(e, j, fl', id);
    KnownStays(e, e1, id);
    EnqueueSettles(e1, f, id);
    SettlesTransitive(e, e1, Enqueue(e1, f), id);
  }

  lemma PopSettles(e: Endpoint, j: StreamId, id: StreamId)
    requires Known(e, id)
    ensures Settles(e, DoPopEvent(e, j), id)
  {
    hide Settles, Known;
    ReflexiveSettles(e, id);
    if j !in e.readers { return; }
    var rd := e.readers[j];
    if rd.queue != [] { ReaderSettles(e, j, Popped(rd), id); }
    ReaderSettles(e, j, rd.(finished := true), id);
  }

  lemma StopSettles(e: Endpoint, j: StreamId, keep: bool, id: StreamId)
    requires Known(e, id)
    ensures Settles(e, if keep then DoStopRead(e, j) else DoDropReader(e, j), id)
  {
    hide Settles, Known, StopRecv;
    ReflexiveSettles(e, id);
    if j !in e.readers { return; }
    var rd := e.readers[j].(stopSent := true);
    var e1 := if keep then e.(readers := e.readers[j := rd]) else e.(readers := e.readers - {j});
    if keep { ReaderSettles(e, j, rd, id); } else { DropSettles(e, j, id); }
    KnownStays(e, e1, id);
    StopRecvSettles(e1, j, id);
    SettlesTransitive(e, e1, StopRecv(e1, j), id);
  }

  lemma DropSettles(e: Endpoint, j: StreamId, id: StreamId)
    requires Known(e, id)
    ensures Settles(e, e.(readers := e.readers - {j}), id)
  {
    hide Known, Fold;
    SameFrontiers(e, e.(readers := e.readers - {j}), id);
  }

  lemma StopRecvSettles(e: Endpoint, j: StreamId, id: StreamId)
    requires Known(e, id)
    ensures Settles(e, StopRecv(e, j), id)
  {
    hide Known, Fold;
    SameFrontiers(e, StopRecv(e, j), id);
  }

  lemma SendQueuedSettles(e: Endpoint, id: StreamId)
    requires Known(e, id)
    ensures Settles(e, DoSendQueued(e), id)
  {
    hide Known, SentView;
    SendQueuedView(e, id);
    SameFrontiers(e, DoSendQueued(e), id);
  }

  lemma SendCreditSettles(e: Endpoint, j: StreamId, id: StreamId)
    requires Known(e, id)
    ensures Settles(e, DoSendCredit(e, j), id)
  {
    hide Known, Credited, SentView;
    SendCreditView(e, j, id);
    SameFrontiers(e, DoSendCredit(e, j), id);
  }

  /** Along any run, a known stream never regains a receive state or send flow it has lost. Once it is
      stopped, or retired with no credit pending, its limit never changes, no credit for it is enqueued
      again, and what it still accepts stays within the limit it had. */
  lemma {:induction false} RunSettles(e: Endpoint, schedule: seq<Action>, id: StreamId)
    requires Known(e, id)
    ensures Settles(e, Run(e, schedule), id)
  {
    hide Settles, Known, Step;
    ReflexiveSettles(e, id);
    if schedule != [] {
      var mid := Run(e, schedule[..|schedule| - 1]);
      RunSettles(e, schedule[..|schedule| - 1], id);
      KnownStays(e, mid, id);
      StepSettles(mid, schedule[|schedule| - 1], id);
      SettlesTransitive(e, mid, Run(e, schedule), id);
    }
  }

  /** Stopping a receive stream freezes its credit: until a FIN or a reset releases its state it stays
      stopped under the limit it had, what it accepts stays within that limit, and neither the
      pending-credit map nor the log ever gains a credit for it. */
  lemma StopFreezesCredit(e: Endpoint, schedule: seq<Action>, id: StreamId)
    requires AllOk(e) && id in e.streams && e.streams[id].stopped
    ensures var e' := Run(e, schedule);
            && id !in e'.pendingCredit
            && SentView(e', id).grant == SentView(e, id).grant
            && (id in e'.streams ==>
                  && e'.streams[id].stopped && e'.streams[id].maxData == e.streams[id].maxData
                  && e'.streams[id].received <= e.streams[id].maxData)
  {
    hide Fold, FlowInv, ReaderInv, Known, Local, Arrived, NoFin, Run;
    var e' := Run(e, schedule);
    RunKeeps(e, schedule);
    HeldIsKnown(e, id);
    assert StreamOk(e, id) && StreamOk(e', id);
    RunSettles(e, schedule, id);
  }

  // ---- Registries ----

  /** Whatever an endpoint holds for a stream, the stream lies below its frontier and has a legal direction. */
  lemma HeldIsKnown(e: Endpoint, id: StreamId)
    requires StreamOk(e, id)
    ensures id in e.streams || id in e.readers || id in e.pendingCredit ==> Known(e, id) && CanReceive(id, e.isServer)
    ensures id in e.sendFlows || id in e.writers ==> Known(e, id) && CanSend(id, e.isServer)
  {
    hide Fold, FlowInv, ReaderInv, StreamInv, Known, Local, CanSend;
    FoldShaped(id, e.isServer, Log(e));
  }

  /** An open that passes validation names a stream above everything held in its direction, so the
      branches for a duplicate receive stream and a duplicate send stream cannot be taken. */
  lemma AcceptedOpenIsNew(e: Endpoint, id: StreamId, dir: Dir, held: StreamId)
    requires AllOk(e) && OpenViolation(e, id, dir).None?
    requires held in e.streams || held in e.readers || held in e.sendFlows || held in e.writers
    ensures id != held && id !in e.streams && id !in e.sendFlows
    ensures !Local(e, held) && DirOf(held) == dir ==> Counter(held) < Counter(id)
    ensures Known(PassPeerFrontier(e, id), id)
  {
    hide StreamOk, DirOf, ByServer, Counter, Advanced, PassPeerFrontier;
    HeldIsKnown(e, held);
    HeldIsKnown(e, id);
    PeerFrontier(e, id);
    AdvancedKnown(e, PassPeerFrontier(e, id), false, DirOf(id), Counter(id), id);
  }

  /** Every bounded resource keeps its limit: send flows, pending credits, accept queues, receive queues. */
  predicate Bounded(e: Endpoint) {
    && |e.sendFlows| <= e.limits.maxOpenStreams && |e.pendingCredit| <= e.limits.maxOpenStreams
    && |e.acceptUni| <= e.limits.acceptUniQueueLen && |e.acceptBi| <= e.limits.acceptBiQueueLen
    && (forall id <- e.readers :: |e.readers[id].queue| <= e.limits.recvEventQueueLen)
  }

  lemma Cardinality<V>(m: map<StreamId, V>, k: StreamId, v: V)
    ensures |m[k := v]| == |m| + (if k in m then 0 else 1)
    ensures |m - {k}| <= |m|
  {
    if k in m { assert m[k := v].Keys == m.Keys; } else { assert m[k := v].Keys == m.Keys + {k}; }
    assert (m - {k}).Keys == m.Keys - {k};
  }

  lemma SubsetCardinality(a: set<StreamId>, b: set<StreamId>)
    requires a <= b
    ensures |a| <= |b|
    decreases b
  {
    if a != {} {
      var x :| x in a;
      SubsetCardinality(a - {x}, b - {x});
    }
  }

  /** Receivable identifiers below a counter: three of every four. */
  lemma {:induction false} ReceivableCount(server: bool, ids: set<StreamId>, c: nat)
    requires forall id <- ids :: CanReceive(id, server) && id < 4 * c
    ensures |ids| <= 3 * c
  {
    hide CanSend;
    if c == 0 {
      assert ids == {};
    } else {
      var low := set id | id in ids && id < 4 * (c - 1);
      ReceivableCount(server, low, c - 1);
      var k := 4 * (c - 1);
      var high := {k, k + 1, if server then k + 2 else k + 3};
      assert ids <= low + high by {
        forall id | id in ids && id !in low ensures id in high {
          ReceivableOfFour(server, c - 1, id);
        }
      }
      SubsetCardinality(ids, low + high);
    }
  }

  lemma ReceivableOfFour(server: bool, c: nat, id: StreamId)
    requires 4 * c <= id < 4 * c + 4 && CanReceive(id, server)
    ensures id in {4 * c, 4 * c + 1, if server then 4 * c + 2 else 4 * c + 3}
  {
    assert id == 4 * c + id % 4;
  }

  lemma PrunedSize(e: Endpoint)
    ensures |Pruned(e)| <= |e.pendingCredit|
  {
    SubsetCardinality(Pruned(e).Keys, e.pendingCredit.Keys);
  }

  lemma PrunedWithin(e: Endpoint, id: StreamId)
    requires |Pruned(e)| >= e.limits.maxOpenStreams && id in e.streams && id !in Pruned(e)
    ensures |e.streams| > |Pruned(e)|
  {
    PrunedSize(e);
    SubsetCardinality(Pruned(e).Keys + {id}, e.streams.Keys);
  }

  /** The slots of the pending-credit map run out only when more than `maxOpenStreams` receive states are live. */
  lemma CreditSlots(e: Endpoint, id: StreamId, maximum: nat)
    requires |e.pendingCredit| <= e.limits.maxOpenStreams
    ensures |QueueCredit(e, id, maximum).pendingCredit| <= e.limits.maxOpenStreams
    ensures !e.closed && QueueCredit(e, id, maximum).closed ==> |e.streams| > e.limits.maxOpenStreams
  {
    if id !in e.streams || e.streams[id].stopped { return; }
    var pending := Pruned(e);
    PrunedSize(e);
    if |pending| >= e.limits.maxOpenStreams && id !in pending {
      PrunedWithin(e, id);
    } else {
      Cardinality(pending, id, maximum);
      if id in pending { Cardinality(pending, id, Max(pending[id], maximum)); }
    }
  }

  lemma RegisterBounded(e: Endpoint, id: StreamId)
    requires Bounded(e)
    ensures Bounded(RegisterRecv(e, id)) && (|e.sendFlows| < e.limits.maxOpenStreams ==> Bounded(RegisterSend(e, id)))
  {
    Cardinality(e.sendFlows, id, SendFlow(0, 0, [], false));
  }

  lemma FlowBounded(e: Endpoint, id: StreamId, fl: SendFlow)
    requires Bounded(e)
    ensures Bounded(DoRemoveFlow(e, id)) && (id in e.sendFlows ==> Bounded(e.(sendFlows := e.sendFlows[id := fl])))
  {
    Cardinality(e.sendFlows, id, fl);
  }

  lemma FrontiersBounded(e: Endpoint, uni: nat, bi: nat, peerUni: nat, peerBi: nat)
    requires Bounded(e)
    ensures Bounded(e.(nextUni := uni)) && Bounded(e.(nextBi := bi))
    ensures Bounded(e.(nextPeerUni := peerUni)) && Bounded(e.(nextPeerBi := peerBi))
  {
  }

  lemma ReserveBounded(e: Endpoint, id: StreamId, data: seq<Byte>)
    requires Bounded(e)
    ensures Bounded(DoReserve(e, id, data)) && Bounded(DoRelease(e, id))
  {
    if id in e.sendFlows {
      var flow := e.sendFlows[id];
      if flow.maxData > flow.sentData {
        var grant := Min(flow.maxData - flow.sentData, |data|);
        FlowBounded(e, id, flow.(sentData := flow.sentData + grant, reserved := data[..grant]));
      }
      if |flow.reserved| <= flow.sentData {
        FlowBounded(e, id, flow.(sentData := flow.sentData - |flow.reserved|, reserved := []));
      }
      hide Bounded, Min;
    }
  }

  lemma CommitBounded(e: Endpoint, id: StreamId)
    requires Bounded(e)
    ensures Bounded(DoCommit(e, id)) && Bounded(DoQueueFin(e, id))
  {
    hide Bounded, Enqueue;
    if id in e.sendFlows {
      var flow := e.sendFlows[id];
      FlowBounded(e, id, flow.(reserved := []));
      FlowBounded(e, id, flow.(finQueued := true));
      EnqueueBounded(e.(sendFlows := e.sendFlows[id := flow.(reserved := [])]), Stream(id, flow.reserved, false));
      EnqueueBounded(e.(sendFlows := e.sendFlows[id := flow.(finQueued := true)]), Stream(id, [], true));
    }
  }

  lemma PopBounded(e: Endpoint, id: StreamId)
    requires Bounded(e)
    ensures Bounded(DoPopEvent(e, id))
  {
  }

  lemma StopReadBounded(e: Endpoint, id: StreamId)
    requires Bounded(e)
    ensures Bounded(DoStopRead(e, id)) && Bounded(DoDropReader(e, id))
  {
    if id in e.readers {
      hide StopRecv;
      var e1 := e.(readers := e.readers[id := e.readers[id].(stopSent := true)]);
      var e2 := e.(readers := e.readers - {id});
      assert Bounded(e1) && Bounded(e2);
      StopBounded(e1, id);
      StopBounded(e2, id);
    }
  }

  lemma StopBounded(e: Endpoint, id: StreamId)
    requires Bounded(e)
    ensures Bounded(StopRecv(e, id))
  {
    Cardinality(e.pendingCredit, id, 0);
  }

  lemma ConsumeBounded(e: Endpoint, id: StreamId, n: nat)
    requires Bounded(e)
    ensures Bounded(DoConsume(e, id, n))
  {
    if id in e.readers && 0 < n <= |e.readers[id].pending| {
      hide QueueCredit, Target;
      var rd1 := Handed(e.readers[id], n);
      var target := Target(e.limits.initialStreamWindow, rd1.consumed);
      assert Bounded(e.(readers := e.readers[id := rd1]));
      var e1 := Raised(e, id, rd1.(granted := target));
      assert Bounded(e1);
      CreditBounded(e1, id, target);
    }
  }

  lemma CreditBounded(e: Endpoint, id: StreamId, maximum: nat)
    requires Bounded(e)
    ensures Bounded(QueueCredit(e, id, maximum))
  {
    hide Pruned;
    CreditSlots(e, id, maximum);
  }

  lemma AdmitBounded(e: Endpoint, id: StreamId, queued: bool, room: bool)
    requires Bounded(e)
    ensures Bounded(Admit(e, id, queued, room))
  {
    hide Bounded, RegisterRecv, RegisterSend, ProtocolError;
    var e1 := if queued then Enqueue(e, InitialCredit(e, id)) else e;
    ErrorBounded(e, 3, "too many open streams", room);
    ErrorBounded(e, 1, "duplicate stream open", room);
    EnqueueBounded(e, InitialCredit(e, id));
    if HandOverViolation(e, id).Some? {
      ErrorBounded(e1, 3, HandOverViolation(e, id).value, room);
    } else {
      HandOverBounded(e1, id);
    }
  }

  lemma EnqueueBounded(e: Endpoint, f: Frame)
    requires Bounded(e)
    ensures Bounded(Enqueue(e, f))
  {
  }

  lemma CloseBounded(e: Endpoint)
    requires Bounded(e)
    ensures Bounded(CloseAll(e))
  {
  }

  lemma ErrorBounded(e: Endpoint, code: nat, reason: string, room: bool)
    requires Bounded(e)
    ensures Bounded(ProtocolError(e, code, reason, room))
  {
  }

  lemma HandOverBounded(e: Endpoint, id: StreamId)
    requires Bounded(e) && HandOverViolation(e, id).None?
    ensures Bounded(HandOver(e, id))
  {
    RegisterBounded(e, id);
    RegisterBounded(RegisterRecv(e, id), id);
  }

  lemma ReceiveBounded(e: Endpoint, f: Frame, queued: bool, room: bool)
    requires Bounded(e)
    ensures Bounded(HandleFrame(e, f, queued, room))
  {
    hide Bounded, Admit, ProtocolError, Accounted, RemoveRecv, DoRemoveFlow, Enqueue, CloseAll, Known;
    hide IsRetiredDirection;
    ErrorBounded(e, 1, "reset on unknown stream", room);
    ErrorBounded(e, 1, "stop on unknown stream", room);
    match f
    case OpenUni(id) => ReceiveOpenBounded(e, id, Uni, queued, room);
    case OpenBi(id) => ReceiveOpenBounded(e, id, Bi, queued, room);
    case Stream(id, data, fin) => ReceiveStreamBounded(e, id, data, fin, room);
    case ResetStream(id, _) => RemoveRecvBounded(e, id);
    case StopSending(id, code) =>
      if id in e.sendFlows {
        FlowBounded(e, id, e.sendFlows[id]);
        EnqueueBounded(DoRemoveFlow(e, id), ResetStream(id, code));
        CloseBounded(DoRemoveFlow(e, id));
      }
    case MaxStreamData(id, max) =>
      if id in e.sendFlows { FlowBounded(e, id, e.sendFlows[id].(maxData := Max(e.sendFlows[id].maxData, max))); }
    case ConnectionClose(_, _) => CloseBounded(e);
  }

  lemma PassedBounded(e: Endpoint, id: StreamId)
    requires Bounded(e)
    ensures Bounded(PassPeerFrontier(e, id))
  {
    hide DirOf, Counter, Bounded;
    FrontiersBounded(e, 0, 0, Counter(id) + 1, Counter(id) + 1);
  }

  lemma ReceiveOpenBounded(e: Endpoint, id: StreamId, dir: Dir, queued: bool, room: bool)
    requires Bounded(e)
    ensures Bounded(ReceiveOpen(e, id, dir, queued, room))
  {
    hide Admit, ProtocolError, OpenViolation, Bounded, PassPeerFrontier;
    var e1 := PassPeerFrontier(e, id);
    PassedBounded(e, id);
    if OpenViolation(e, id, dir).Some? {
      ErrorBounded(e, 1, OpenViolation(e, id, dir).value, room);
    } else {
      AdmitBounded(e1, id, queued, room);
    }
  }

  lemma RemoveRecvBounded(e: Endpoint, id: StreamId)
    requires Bounded(e)
    ensures Bounded(RemoveRecv(e, id))
  {
  }

  lemma ReceiveStreamBounded(e: Endpoint, id: StreamId, data: seq<Byte>, fin: bool, room: bool)
    requires Bounded(e)
    ensures Bounded(ReceiveStream(e, id, data, fin, room))
  {
    var v := StreamViolation(e, id, data);
    if v.Some? { ErrorBounded(e, v.value.0, v.value.1, room); }
  }

  lemma OpenBounded(e: Endpoint, dir: Dir, queued: bool, credited: bool)
    requires Bounded(e)
    ensures Bounded(if dir.Uni? then DoOpenUni(e, queued) else DoOpenBi(e, queued, credited))
  {
    hide NewId, Bounded, RegisterRecv, RegisterSend, Enqueue, InitialCredit;
    var counter := if dir.Uni? then e.nextUni else e.nextBi;
    var e1 := if dir.Uni? then e.(nextUni := e.nextUni + 1) else e.(nextBi := e.nextBi + 1);
    FrontiersBounded(e, e.nextUni + 1, e.nextBi + 1, 0, 0);
    var got := NewId(counter, e.isServer, dir);
    if got.Some? && SendSlotFree(e, got.value) {
      var id := got.value;
      RegisterBounded(e1, id);
      EnqueueBounded(e1, OpenBi(id));
      var e2 := RegisterSend(e1, id);
      RegisterBounded(e2, id);
      EnqueueBounded(e2, OpenUni(id));
      EnqueueBounded(RegisterRecv(e2, id), OpenBi(id));
      EnqueueBounded(Enqueue(RegisterRecv(e2, id), OpenBi(id)), InitialCredit(e, id));
    }
  }

  lemma StillBounded(e: Endpoint, id: StreamId, code: nat)
    requires Bounded(e)
    ensures Bounded(DoQueueReset(e, id, code)) && Bounded(DoQueueStop(e, id, code)) && Bounded(DoDropWriter(e, id))
  {
    EnqueueBounded(e, ResetStream(id, code));
    EnqueueBounded(e, StopSending(id, code));
    hide Enqueue;
  }

  lemma WrittenBounded(e: Endpoint, id: StreamId)
    requires Bounded(e)
    ensures Bounded(DoSendQueued(e)) && Bounded(DoSendCredit(e, id))
  {
    Cardinality(e.pendingCredit, id, 0);
  }

  lemma AcceptBounded(e: Endpoint)
    requires Bounded(e)
    ensures Bounded(DoAcceptUni(e)) && Bounded(DoAcceptBi(e))
  {
  }

  lemma StepBounded(e: Endpoint, a: Action)
    requires Bounded(e)
    ensures Bounded(Step(e, a))
  {
    hide *;
    StepForm(e, a);
    match a
    case OpenUniStream(queued) => OpenBounded(e, Uni, queued, true);
    case OpenBiStream(queued, credited) => OpenBounded(e, Bi, queued, credited);
    case Reserve(id, data) => ReserveBounded(e, id, data);
    case Commit(id) => CommitBounded(e, id);
    case Release(id) => ReserveBounded(e, id, []);
    case QueueFin(id) => CommitBounded(e, id);
    case RemoveFlow(id) => FlowBounded(e, id, SendFlow(0, 0, [], false));
    case QueueReset(id, code) => StillBounded(e, id, code);
    case DropWriter(id) => StillBounded(e, id, 0);
    case PopEvent(id) => PopBounded(e, id);
    case Consume(id, n) => ConsumeBounded(e, id, n);
    case StopRead(id) => StopReadBounded(e, id);
    case QueueStop(id, code) => StillBounded(e, id, code);
    case DropReader(id) => StopReadBounded(e, id);
    case AcceptUni => AcceptBounded(e);
    case AcceptBi => AcceptBounded(e);
    case Receive(f, queued, room) => ReceiveBounded(e, f, queued, room);
    case SendCredit(id) => WrittenBounded(e, id);
    case SendQueued => WrittenBounded(e, 0);
    case Reject(problem, room) => ErrorBounded(e, ProblemCode(problem), ProblemReason(problem), room);
    case CloseSession => CloseBounded(e);
  }

  /** In every run, whatever the peer sends, every bounded resource keeps its limit. */
  lemma {:induction false} RunBounded(server: bool, lim: Limits, schedule: seq<Action>)
    ensures Bounded(Run(Fresh(server, lim), schedule))
  {
    hide Step;
    if schedule != [] {
      hide Bounded;
      RunBounded(server, lim, schedule[..|schedule| - 1]);
      StepBounded(Run(Fresh(server, lim), schedule[..|schedule| - 1]), schedule[|schedule| - 1]);
    }
  }

  // ---- What goes on the wire ----

  /** A session can run out of send slots only if there are more identifiers to send on. */
  function MaxReason(lim: Limits): (n: nat)
    ensures SHORT_REASON <= n
  {
    if lim.maxOpenStreams < 3 * IDS then MAX_REASON else SHORT_REASON
  }

  /** A frame whose fields fit their varints and whose payload is no longer than a write makes it. */
  predicate FrameOk(lim: Limits, f: Frame) {
    && Fits(Header(f))
    && (f.Stream? ==> |f.data| <= MaxChunk(lim) && (f.data == [] <==> f.fin))
    && (f.ConnectionClose? ==>
          f.code <= 3 && |f.reason| <= MaxReason(lim) && forall i :: 0 <= i < |f.reason| ==> f.reason[i] < 128)
  }

  predicate FramesOk(lim: Limits, fs: seq<Frame>) {
    forall i :: 0 <= i < |fs| ==> FrameOk(lim, fs[i])
  }

  /** All frames sent and queued can be encoded, and so can the frames that what is held may give rise to. */
  predicate WireOk(e: Endpoint) {
    && FramesOk(e.limits, e.sent) && FramesOk(e.limits, e.outbound)
    && (forall id <- e.sendFlows :: id <= MAX) && (forall id <- e.writers :: id <= MAX)
    && (forall id <- e.streams :: id <= MAX)
    && (forall id <- e.readers :: id <= MAX) && (forall id <- e.pendingCredit :: id <= MAX)
  }

  lemma EnqueueWire(e: Endpoint, f: Frame)
    requires WireOk(e) && FrameOk(e.limits, f)
    ensures WireOk(Enqueue(e, f))
  {
    hide FrameOk;
  }

  lemma CloseWire(e: Endpoint, code: nat, reason: string, room: bool)
    requires WireOk(e) && code <= 3 && |reason| <= MaxReason(e.limits)
    ensures WireOk(CloseAll(e)) && WireOk(ProtocolError(e, code, reason, room))
  {
    assert FrameOk(e.limits, ConnectionClose(code, Ascii(reason)));
    hide FrameOk, Ascii;
  }

  lemma RegisterWire(e: Endpoint, id: StreamId)
    requires WireOk(e) && id <= MAX
    ensures WireOk(RegisterSend(e, id)) && WireOk(RegisterRecv(e, id))
  {
    hide FramesOk, NewReader;
  }

  lemma OpenWire(e: Endpoint, dir: Dir, queued: bool, credited: bool)
    requires WireOk(e) && Valid(e.limits)
    ensures WireOk(if dir.Uni? then DoOpenUni(e, queued) else DoOpenBi(e, queued, credited))
  {
    hide WireOk, SendSlotFree, RegisterSend, RegisterRecv, Enqueue, Valid, FrameOk;
    var e1 := if dir.Uni? then e.(nextUni := e.nextUni + 1) else e.(nextBi := e.nextBi + 1);
    SameHoldingsWire(e, e1);
    var got := NewId(Frontier(e, true, dir), e.isServer, dir);
    if got.None? { return; }
    var id := got.value;
    OpenFramesOk(e.limits, id);
    RegisterWire(e1, id);
    var e2 := RegisterSend(e1, id);
    if dir.Uni? {
      EnqueueWire(e2, OpenUni(id));
    } else {
      EnqueueWire(e1, OpenBi(id));
      RegisterWire(e2, id);
      var e3 := RegisterRecv(e2, id);
      EnqueueWire(e3, OpenBi(id));
      EnqueueWire(Enqueue(e3, OpenBi(id)), InitialCredit(e, id));
    }
  }

  lemma OpenFramesOk(lim: Limits, id: StreamId)
    requires Valid(lim) && id <= MAX
    ensures FrameOk(lim, OpenUni(id)) && FrameOk(lim, OpenBi(id))
            && FrameOk(lim, MaxStreamData(id, lim.initialStreamWindow))
  {
  }

  lemma SameHoldingsWire(e: Endpoint, e': Endpoint)
    requires WireOk(e) && SameWire(e, e') && e'.outbound == e.outbound
    requires e'.sendFlows == e.sendFlows && e'.writers == e.writers && e'.streams == e.streams
    requires e'.readers == e.readers && e'.pendingCredit == e.pendingCredit
    ensures WireOk(e')
  {
    hide FramesOk;
  }

  lemma ReserveWire(e: Endpoint, id: StreamId, data: seq<Byte>)
    requires WireOk(e)
    ensures WireOk(DoReserve(e, id, data)) && WireOk(DoRelease(e, id))
  {
    hide FramesOk, Min;
  }

  lemma PublishWire(e: Endpoint, id: StreamId)
    requires WireOk(e) && AllOk(e)
    ensures WireOk(DoCommit(e, id)) && WireOk(DoQueueFin(e, id))
  {
    if id !in e.sendFlows { return; }
    FlowOf(e, id);
    var fl := e.sendFlows[id];
    assert fl.reserved != [] ==> FrameOk(e.limits, Stream(id, fl.reserved, false));
    assert FrameOk(e.limits, Stream(id, [], true));
    FlowWire(e, id, fl.(reserved := []));
    FlowWire(e, id, fl.(finQueued := true));
    hide FrameOk, AllOk, WireOk, Enqueue;
    if fl.reserved != [] {
      EnqueueWire(e.(sendFlows := e.sendFlows[id := fl.(reserved := [])]), Stream(id, fl.reserved, false));
    }
    EnqueueWire(e.(sendFlows := e.sendFlows[id := fl.(finQueued := true)]), Stream(id, [], true));
  }

  lemma RemoveWire(e: Endpoint, id: StreamId)
    requires WireOk(e)
    ensures WireOk(DoRemoveFlow(e, id)) && WireOk(DoDropWriter(e, id))
  {
    hide FramesOk;
  }

  lemma ControlWire(e: Endpoint, id: StreamId, code: nat)
    requires WireOk(e)
    ensures WireOk(DoQueueReset(e, id, code)) && WireOk(DoQueueStop(e, id, code))
  {
    hide FramesOk, Enqueue;
    if id <= MAX && code <= MAX {
      assert FrameOk(e.limits, ResetStream(id, code)) && FrameOk(e.limits, StopSending(id, code));
      EnqueueWire(e, ResetStream(id, code));
      EnqueueWire(e, StopSending(id, code));
    }
  }

  lemma FlowOf(e: Endpoint, id: StreamId)
    requires AllOk(e) && id in e.sendFlows
    ensures |e.sendFlows[id].reserved| <= MaxChunk(e.limits) <= MAX
    ensures |e.sendFlows[id].reserved| <= e.sendFlows[id].sentData <= e.sendFlows[id].maxData
  {
    hide Fold, StreamInv, ReaderInv, Known, Local, CanSend, Ready, StreamOk;
    assert StreamOk(e, id);
    FlowInvOf(e, id);
  }

  /** A reader that asked to stop has stopped its stream, and no credit waits for it. */
  lemma StoppedOf(e: Endpoint, id: StreamId)
    requires AllOk(e) && id in e.readers && e.readers[id].stopSent
    ensures id in e.streams ==> e.streams[id].stopped && id !in e.pendingCredit
  {
    hide Fold, FlowInv, ReaderInv, Known, Local, CanSend, Ready, NoFin, Arrived, Max;
    assert StreamOk(e, id);
  }

  /** A closed endpoint holds no stream state and no credit. */
  lemma ClosedOf(e: Endpoint, id: StreamId)
    requires AllOk(e)
    ensures e.closed ==> id !in e.sendFlows && id !in e.streams && id !in e.pendingCredit
  {
    hide Fold, FlowInv, ReaderInv, StreamInv, Known, Local, CanSend, Ready;
    assert StreamOk(e, id);
  }

  lemma FlowInvOf(e: Endpoint, id: StreamId)
    requires StreamOk(e, id) && id in e.sendFlows
    ensures |e.sendFlows[id].reserved| <= MaxChunk(e.limits)
    ensures |e.sendFlows[id].reserved| <= e.sendFlows[id].sentData <= e.sendFlows[id].maxData
  {
    hide Fold, StreamInv, ReaderInv, Known, Local, CanSend, Ready;
  }

  lemma CreditReaders(e: Endpoint, id: StreamId, maximum: nat)
    ensures QueueCredit(e, id, maximum).readers == e.readers
  {
    hide Pruned;
  }

  lemma CreditOf(e: Endpoint, id: StreamId)
    requires StreamOk(e, id) && id in e.pendingCredit
    ensures e.pendingCredit[id] <= MAX
  {
    hide Fold, StreamInv, ReaderInv, FlowInv, Known, Local, CanSend, Ready;
  }

  lemma WriterWire(e: Endpoint, id: StreamId)
    requires WireOk(e) && AllOk(e)
    ensures WireOk(DoSendQueued(e)) && WireOk(DoSendCredit(e, id))
  {
    hide DoSendQueued, DoSendCredit, WireOk, AllOk;
    QueuedWire(e);
    CreditWire(e, id);
  }

  lemma QueuedWire(e: Endpoint)
    requires WireOk(e)
    ensures WireOk(DoSendQueued(e))
  {
    hide FrameOk;
  }

  lemma CreditWire(e: Endpoint, id: StreamId)
    requires WireOk(e) && AllOk(e)
    ensures WireOk(DoSendCredit(e, id))
  {
    hide FrameOk, AllOk;
    if id in e.pendingCredit { PendingFrameOk(e, id); }
  }

  lemma PendingFrameOk(e: Endpoint, id: StreamId)
    requires WireOk(e) && AllOk(e) && id in e.pendingCredit
    ensures FrameOk(e.limits, MaxStreamData(id, e.pendingCredit[id]))
  {
    hide StreamOk;
    assert StreamOk(e, id);
    CreditOf(e, id);
  }

  lemma ReadWire(e: Endpoint, id: StreamId)
    requires WireOk(e)
    ensures WireOk(DoPopEvent(e, id))
  {
    hide FramesOk;
  }

  lemma StopReadWire(e: Endpoint, id: StreamId)
    requires WireOk(e)
    ensures WireOk(DoStopRead(e, id)) && WireOk(DoDropReader(e, id))
  {
    hide FramesOk;
  }

  lemma AcceptWire(e: Endpoint)
    requires WireOk(e)
    ensures WireOk(DoAcceptUni(e)) && WireOk(DoAcceptBi(e))
  {
    hide FramesOk;
  }

  lemma ConsumeWire(e: Endpoint, j: StreamId, n: nat)
    requires WireOk(e)
    ensures WireOk(DoConsume(e, j, n))
  {
    hide FramesOk, Target;
    if j !in e.readers || n == 0 || n > |e.readers[j].pending| { return; }
    var rd1 := Handed(e.readers[j], n);
    var target := Target(e.limits.initialStreamWindow, rd1.consumed);
    if !(target <= rd1.granted || target - rd1.granted < e.limits.windowUpdateThreshold || rd1.finished
        || rd1.stopSent) {
      var e1 := Raised(e, j, rd1.(granted := target));
      assert WireOk(e1);
      QueueCreditWire(e1, j, target);
    }
  }

  lemma QueueCreditWire(e: Endpoint, j: StreamId, maximum: nat)
    requires WireOk(e) && j in e.readers
    ensures WireOk(QueueCredit(e, j, maximum))
  {
    hide FramesOk;
  }

  lemma HandOverWire(e: Endpoint, id: StreamId)
    requires WireOk(e) && id <= MAX
    ensures WireOk(HandOver(e, id))
  {
    hide WireOk, NewReader;
    RegisterWire(e, id);
    RegisterWire(RegisterRecv(e, id), id);
    SameHoldingsWire(RegisterRecv(e, id), RegisterRecv(e, id).(acceptUni := e.acceptUni + [id]));
    var e2 := RegisterSend(RegisterRecv(e, id), id);
    SameHoldingsWire(e2, e2.(acceptBi := e.acceptBi + [id]));
  }

  lemma AdmitWire(e: Endpoint, id: StreamId, queued: bool, room: bool)
    requires WireOk(e) && Valid(e.limits) && id <= MAX
    requires HandOverViolation(e, id).Some? ==> |HandOverViolation(e, id).value| <= MaxReason(e.limits)
    ensures WireOk(Admit(e, id, queued, room))
  {
    hide WireOk, ProtocolError, Enqueue, HandOver, HandOverViolation, FrameOk, Valid;
    OpenFramesOk(e.limits, id);
    var e1 := if queued then Enqueue(e, InitialCredit(e, id)) else e;
    EnqueueWire(e, InitialCredit(e, id));
    CloseWire(e, 3, "too many open streams", room);
    CloseWire(e, 1, "duplicate stream open", room);
    HandOverWire(e1, id);
    if HandOverViolation(e, id).Some? { CloseWire(e1, 3, HandOverViolation(e, id).value, room); }
  }

  lemma ReceiveWire(e: Endpoint, f: Frame, queued: bool, room: bool)
    requires WireOk(e) && AllOk(e) && Fits(Header(f))
    ensures WireOk(HandleFrame(e, f, queued, room))
  {
    hide WireOk, AllOk, Fits, MaxReason, Admit, ProtocolError, Accounted, RemoveRecv, AnswerStop, CloseAll;
    FitsFields(f);
    CloseWire(e, 1, "reset on unknown stream", room);
    CloseWire(e, 1, "stop on unknown stream", room);
    match f
    case OpenUni(id) => ReceiveOpenWire(e, id, Uni, queued, room);
    case OpenBi(id) => ReceiveOpenWire(e, id, Bi, queued, room);
    case Stream(id, data, fin) =>
      var v := StreamViolation(e, id, data);
      if v.Some? { CloseWire(e, v.value.0, v.value.1, room); } else { RecvWire(e, id, data, fin); }
    case ResetStream(id, _) => if id in e.streams { RecvWire(e, id, [], true); }
    case StopSending(id, code) => if id in e.sendFlows { StopWire(e, id, code, queued); }
    case MaxStreamData(id, max) =>
      if id in e.sendFlows { FlowWire(e, id, e.sendFlows[id].(maxData := Max(e.sendFlows[id].maxData, max))); }
    case ConnectionClose(_, _) =>
  }

  lemma FitsFields(f: Frame)
    requires Fits(Header(f))
    ensures f.OpenUni? || f.OpenBi? || f.Stream? || f.ResetStream? || f.StopSending? || f.MaxStreamData? ==> f.id <= MAX
    ensures f.ResetStream? || f.StopSending? ==> f.code <= MAX
  {
    var h := Header(f);
    assert h[1] <= MAX && (|h| > 2 ==> h[2] <= MAX);
  }

  lemma ReceiveOpenWire(e: Endpoint, id: StreamId, dir: Dir, queued: bool, room: bool)
    requires WireOk(e) && AllOk(e) && id <= MAX
    ensures WireOk(ReceiveOpen(e, id, dir, queued, room))
  {
    ValidOf(e);
    hide FramesOk, Valid, Admit, ProtocolError, OpenViolation, AllOk, HandOverViolation, MaxReason;
    if OpenViolation(e, id, dir).Some? {
      CloseWire(e, 1, OpenViolation(e, id, dir).value, room);
    } else {
      HandOverReason(e, id, dir);
      AdmitWire(PassPeerFrontier(e, id), id, queued, room);
    }
  }

  lemma HandOverReason(e: Endpoint, id: StreamId, dir: Dir)
    requires WireOk(e) && AllOk(e) && id <= MAX && OpenViolation(e, id, dir).None?
    ensures var v := HandOverViolation(PassPeerFrontier(e, id), id); v.Some? ==> |v.value| <= MaxReason(e.limits)
  {
    var j := id;
    assert StreamOk(e, j);
    assert !Known(e, j) && ByServer(j) != e.isServer;
    HeldIsKnown(e, j);
    if DirOf(j).Bi? { FlowsSpare(e, j); }
    hide StreamOk, AllOk, WireOk, Known, OpenViolation, Counter, DirOf;
  }

  /** With an identifier to spare there are fewer flows than identifiers to send on. */
  lemma FlowsSpare(e: Endpoint, j: StreamId)
    requires WireOk(e) && AllOk(e) && j <= MAX && CanSend(j, e.isServer) && j !in e.sendFlows
    ensures |e.sendFlows| < 3 * IDS
  {
    hide FramesOk, AllOk, CanSend;
    var ids := e.sendFlows.Keys + {j};
    forall id | id in ids ensures CanReceive(id, !e.isServer) && id < 4 * IDS {
      if id in e.sendFlows { FlowSendable(e, id); }
    }
    ReceivableCount(!e.isServer, ids, IDS);
  }

  lemma FlowSendable(e: Endpoint, id: StreamId)
    requires AllOk(e) && id in e.sendFlows
    ensures CanSend(id, e.isServer)
  {
    assert StreamOk(e, id);
    hide StreamOk, AllOk, CanSend, Known;
    HeldIsKnown(e, id);
  }

  lemma RecvWire(e: Endpoint, id: StreamId, data: seq<Byte>, fin: bool)
    requires WireOk(e) && id in e.streams
    ensures WireOk(Accounted(e, id, data, fin)) && WireOk(RemoveRecv(e, id))
  {
    hide FramesOk;
  }

  lemma StopWire(e: Endpoint, id: StreamId, code: nat, queued: bool)
    requires WireOk(e) && id in e.sendFlows && code <= MAX
    ensures WireOk(AnswerStop(e, id, code, queued))
  {
    assert FrameOk(e.limits, ResetStream(id, code));
    RemoveWire(e, id);
    hide FrameOk, WireOk, Enqueue, DoRemoveFlow, CloseAll;
    EnqueueWire(DoRemoveFlow(e, id), ResetStream(id, code));
    CloseWire(DoRemoveFlow(e, id), 0, "", false);
  }

  lemma FlowWire(e: Endpoint, id: StreamId, fl: SendFlow)
    requires WireOk(e) && id in e.sendFlows
    ensures WireOk(e.(sendFlows := e.sendFlows[id := fl]))
  {
    hide FramesOk;
  }

  /** Whatever an endpoint ever sends or queues can be encoded, as long as what it receives was decoded. */
  lemma FitsIfReceived(a: Action)
    requires Decodable(a)
    ensures a.Receive? ==> Fits(Header(a.frame))
  {
  }

  lemma RejectWire(e: Endpoint, problem: Problem, room: bool)
    requires WireOk(e)
    ensures WireOk(ProtocolError(e, ProblemCode(problem), ProblemReason(problem), room))
  {
    hide WireOk, ProtocolError;
    CloseWire(e, ProblemCode(problem), ProblemReason(problem), room);
  }

  lemma StepWire(e: Endpoint, a: Action)
    requires WireOk(e) && AllOk(e) && Decodable(a)
    ensures WireOk(Step(e, a))
  {
    hide *;
    ValidOf(e);
    FitsIfReceived(a);
    StepForm(e, a);
    match a
    case OpenUniStream(queued) => OpenWire(e, Uni, queued, true);
    case OpenBiStream(queued, credited) => OpenWire(e, Bi, queued, credited);
    case Reserve(id, data) => ReserveWire(e, id, data);
    case Commit(id) => PublishWire(e, id);
    case Release(id) => ReserveWire(e, id, []);
    case QueueFin(id) => PublishWire(e, id);
    case RemoveFlow(id) => RemoveWire(e, id);
    case QueueReset(id, code) => ControlWire(e, id, code);
    case DropWriter(id) => RemoveWire(e, id);
    case QueueStop(id, code) => ControlWire(e, id, code);
    case PopEvent(id) => ReadWire(e, id);
    case StopRead(id) => StopReadWire(e, id);
    case DropReader(id) => StopReadWire(e, id);
    case Consume(j, n) => ConsumeWire(e, j, n);
    case AcceptUni => AcceptWire(e);
    case AcceptBi => AcceptWire(e);
    case SendQueued => WriterWire(e, 0);
    case SendCredit(id) => WriterWire(e, id);
    case Receive(f, queued, room) => ReceiveWire(e, f, queued, room);
    case Reject(problem, room) => RejectWire(e, problem, room);
    case CloseSession => CloseWire(e, 0, "", false);
  }

  /** In every run every frame sent or queued can be encoded, and stream data keeps the frame limit. */
  lemma {:induction false} RunWire(server: bool, lim: Limits, schedule: seq<Action>)
    requires Valid(lim) && forall i :: 0 <= i < |schedule| ==> Decodable(schedule[i])
    ensures WireOk(Run(Fresh(server, lim), schedule))
  {
    hide Valid, Step, AllOk, Decodable;
    if schedule != [] {
      hide WireOk;
      var front := schedule[..|schedule| - 1];
      RunWire(server, lim, front);
      FreshKeeps(server, lim);
      RunKeeps(Fresh(server, lim), front);
      StepWire(Run(Fresh(server, lim), front), schedule[|schedule| - 1]);
    }
  }
}
