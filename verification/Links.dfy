/** How one end of a connection relates to the frames exchanged with an honest peer, stream by stream. */
module Links {
  import opened VarInts
  import opened Frames
  import opened SessionLimits
  import opened Endpoints
  import opened Views
  import opened EndpointInvariant
  import opened EndpointTheorems

  predicate HasFin(q: seq<RecvEvent>) {
    exists i :: 0 <= i < |q| && q[i].fin
  }

  /** The bytes that reached a reader come first among those its endpoint has processed, and a FIN
      that reached it means they are all of them. */
  predicate ReaderLink(rd: Reader, px: View) {
    && Arrived(rd) <= px.bytes
    && (rd.finSeen || HasFin(rd.queue) ==> px.ended == Finished && Arrived(rd) == px.bytes)
  }

  /** How an endpoint's state about a stream relates to the frames it has processed (px), enqueued (sx),
      and had processed by its peer (py): what holds even of a closed endpoint. */
  predicate BaseLink(x: End, px: View, sx: View, py: View) {
    && !sx.early && |sx.bytes| <= px.grant
    && (!x.local ==> x.known == px.passed && (!px.begun ==> Unused(x, sx)))
    && (x.credit.Some? && x.local ==> py.begun)
    && (x.reader.Some? ==> ReaderLink(x.reader.value, px))
  }

  /** And of an open one: send limits are the credits processed, receive state exists exactly while
      the peer's direction is open, unless the open was given up halfway, and a reader that was not stopped has
      everything. */
  predicate LinkInv(id: StreamId, server: bool, x: End, px: View, sx: View, py: View) {
    && BaseLink(x, px, sx, py)
    && (x.flow.Some? ==> x.flow.value.maxData == px.grant)
    && (!x.closed ==>
          (x.stream.Some? <==>
             CanReceive(id, server) && (if x.local then sx.begun && sx.grant > 0 else px.begun) && px.ended.Live?))
    && (x.stream.Some? ==> x.stream.value.received == |px.bytes|)
    && (!x.closed && x.reader.Some? && !x.reader.value.stopSent ==>
          && Arrived(x.reader.value) == px.bytes
          && (px.ended == Finished ==> x.reader.value.finSeen || HasFin(x.reader.value.queue)))
  }

  predicate LinkOk(e: Endpoint, id: StreamId, px: View, py: View) {
    LinkInv(id, e.isServer, EndOf(e, id), px, SentView(e, id), py)
  }

  /** What the other end guarantees: it uses a stream only after processing its open. */
  predicate PeerOk(e: Endpoint, id: StreamId, px: View, py: View) {
    && (Local(e, id) && px.active ==> py.begun)
    && Shaped(id, !e.isServer, px)
    && Before(py, Fold(id, e.isServer, e.sent))
    && Before(Fold(id, e.isServer, e.sent), SentView(e, id))
  }

  // ---- An endpoint's own actions keep its link ----

  /** Send-side changes: the receive side is untouched, the log gains no open and no credit, and an
      unused stream stays as it is. */
  predicate SendSide(x: End, sx: View, x': End, sx': View) {
    && x' == x.(flow := x'.flow, writer := x'.writer)
    && sx' == sx.(bytes := sx'.bytes, ended := sx'.ended, active := sx'.active)
    && (x'.flow.Some? ==> x.flow.Some? && x'.flow.value.maxData == x.flow.value.maxData)
    && (x'.flow.None? ==> sx'.bytes == sx.bytes)
    && (x.flow.None? && !x.writer ==> x' == x && sx' == sx)
  }

  lemma SendSideLink(e: Endpoint, e': Endpoint, id: StreamId, px: View, py: View)
    requires LinkOk(e, id, px, py) && StreamOk(e', id) && SameRole(e, e')
    requires SendSide(EndOf(e, id), SentView(e, id), EndOf(e', id), SentView(e', id))
    ensures LinkOk(e', id, px, py)
  {
    hide ReaderLink, CanSend, Ready, EndOf, SentView, StreamInv, ReaderInv;
  }

  lemma FlowSet(e: Endpoint, j: StreamId, fl: SendFlow, id: StreamId)
    requires j in e.sendFlows && fl.maxData == e.sendFlows[j].maxData
    ensures var e' := e.(sendFlows := e.sendFlows[j := fl]);
            SendSide(EndOf(e, id), SentView(e, id), EndOf(e', id), SentView(e', id))
  {
    hide Fold, Known, Local;
    SetFlow(e, j, fl, id);
  }

  lemma FlowOrWriterGone(e: Endpoint, j: StreamId, id: StreamId)
    ensures var e' := DoRemoveFlow(e, j); SendSide(EndOf(e, id), SentView(e, id), EndOf(e', id), SentView(e', id))
    ensures var e' := DoDropWriter(e, j); SendSide(EndOf(e, id), SentView(e, id), EndOf(e', id), SentView(e', id))
  {
    hide Fold, Known, Local, DoRemoveFlow;
    RemovedFlow(e, j, id);
    SameFrontiers(e, DoDropWriter(e, j), id);
  }

  lemma DataQueued(e: Endpoint, j: StreamId, fl: SendFlow, f: Frame, id: StreamId)
    requires j in e.sendFlows && fl.maxData == e.sendFlows[j].maxData && f.Stream? && f.id == j
    requires var e' := Enqueue(e.(sendFlows := e.sendFlows[j := fl]), f);
             !SentView(e, id).bad && !SentView(e', id).bad
    ensures var e' := Enqueue(e.(sendFlows := e.sendFlows[j := fl]), f);
            SendSide(EndOf(e, id), SentView(e, id), EndOf(e', id), SentView(e', id))
  {
    hide Fold, Known, Local, Ready, CanSend, Enqueue;
    var e1 := e.(sendFlows := e.sendFlows[j := fl]);
    SetFlow(e, j, fl, id);
    EnqueueView(e1, f, id);
    EnqueueProjection(e1, f, id);
  }

  lemma ResetQueued(e: Endpoint, j: StreamId, code: nat, id: StreamId)
    requires j in e.writers && j !in e.sendFlows
    requires !SentView(e, id).bad && !SentView(Enqueue(e, ResetStream(j, code)), id).bad
    ensures var e' := Enqueue(e, ResetStream(j, code));
            SendSide(EndOf(e, id), SentView(e, id), EndOf(e', id), SentView(e', id))
  {
    hide Fold, Known, Local, Ready, CanSend, Enqueue;
    EnqueueView(e, ResetStream(j, code), id);
    EnqueueProjection(e, ResetStream(j, code), id);
  }

  predicate SendAction(a: Action) {
    a.Reserve? || a.Commit? || a.Release? || a.QueueFin? || a.RemoveFlow? || a.QueueReset? || a.DropWriter?
  }

  lemma ReserveSide(e: Endpoint, j: StreamId, data: seq<Byte>, id: StreamId)
    ensures var e' := DoReserve(e, j, data); SendSide(EndOf(e, id), SentView(e, id), EndOf(e', id), SentView(e', id))
    ensures var e' := DoRelease(e, j); SendSide(EndOf(e, id), SentView(e, id), EndOf(e', id), SentView(e', id))
  {
    hide EndOf, SentView, Min;
    if j in e.sendFlows {
      FlowSet(e, j, DoReserve(e, j, data).sendFlows[j], id);
      FlowSet(e, j, DoRelease(e, j).sendFlows[j], id);
    }
  }

  lemma PublishSide(e: Endpoint, j: StreamId, fin: bool, id: StreamId)
    requires var e' := if fin then DoQueueFin(e, j) else DoCommit(e, j); !SentView(e, id).bad && !SentView(e', id).bad
    ensures var e' := if fin then DoQueueFin(e, j) else DoCommit(e, j);
            SendSide(EndOf(e, id), SentView(e, id), EndOf(e', id), SentView(e', id))
  {
    hide EndOf, SentView, Enqueue;
    if j in e.sendFlows {
      var fl := e.sendFlows[j];
      if fin {
        if !fl.finQueued && fl.reserved == [] { DataQueued(e, j, fl.(finQueued := true), Stream(j, [], true), id); }
      } else if fl.reserved != [] {
        DataQueued(e, j, fl.(reserved := []), Stream(j, fl.reserved, false), id);
      }
    }
  }

  lemma ResetSide(e: Endpoint, j: StreamId, code: nat, id: StreamId)
    requires !SentView(e, id).bad && !SentView(DoQueueReset(e, j, code), id).bad
    ensures var e' := DoQueueReset(e, j, code); SendSide(EndOf(e, id), SentView(e, id), EndOf(e', id), SentView(e', id))
  {
    hide EndOf, SentView, Enqueue;
    if !e.closed && j !in e.sendFlows && j in e.writers && code <= MAX { ResetQueued(e, j, code, id); }
  }

  lemma SendActionSide(e: Endpoint, a: Action, id: StreamId)
    requires SendAction(a) && !SentView(e, id).bad && !SentView(Step(e, a), id).bad
    ensures SendSide(EndOf(e, id), SentView(e, id), EndOf(Step(e, a), id), SentView(Step(e, a), id))
  {
    hide EndOf, SentView, SendSide, DoReserve, DoRelease, DoCommit, DoQueueFin, DoQueueReset, DoRemoveFlow;
    hide DoDropWriter;
    match a
    case Reserve(j, data) => ReserveSide(e, j, data, id);
    case Release(j) => ReserveSide(e, j, [], id);
    case Commit(j) => PublishSide(e, j, false, id);
    case QueueFin(j) => PublishSide(e, j, true, id);
    case QueueReset(j, code) => ResetSide(e, j, code, id);
    case RemoveFlow(j) => FlowOrWriterGone(e, j, id);
    case DropWriter(j) => FlowOrWriterGone(e, j, id);
  }

  lemma SendActionLink(e: Endpoint, a: Action, id: StreamId, px: View, py: View)
    requires LinkOk(e, id, px, py) && StreamOk(e, id) && StreamOk(Step(e, a), id) && SendAction(a)
    ensures LinkOk(Step(e, a), id, px, py)
  {
    hide Step, LinkOk, StreamOk, SendSide, SendAction, Fold;
    NotBad(e, id);
    NotBad(Step(e, a), id);
    SendActionSide(e, a, id);
    SendSideLink(e, Step(e, a), id, px, py);
  }

  lemma PopLink(e: Endpoint, j: StreamId, id: StreamId, px: View, py: View)
    requires LinkOk(e, id, px, py) && StreamOk(e, id)
    ensures LinkOk(DoPopEvent(e, j), id, px, py)
  {
    hide LinkInv, EndOf, SentView, Known, Local;
    if j !in e.readers { return; }
    var rd := e.readers[j];
    if rd.pending != [] || rd.finished || (rd.queue == [] && j in e.streams) { return; }
    var rd' := if rd.queue != [] then Popped(rd) else rd.(finished := true);
    SetReader(e, j, rd', id);
    if j == id {
      ReaderOf(e, id);
      if rd.queue != [] { PoppedKeeps(e.limits, rd); } else { ArrivedSame(rd, rd'); }
      PoppedLink(e, rd, rd', id, px, py);
    }
  }

  lemma PoppedLink(e: Endpoint, rd: Reader, rd': Reader, id: StreamId, px: View, py: View)
    requires LinkOk(e, id, px, py) && id in e.readers && e.readers[id] == rd
    requires Arrived(rd') == Arrived(rd) && rd'.stopSent == rd.stopSent
    requires if rd.queue != [] then rd' == Popped(rd) else rd'.queue == rd.queue && rd'.finSeen == rd.finSeen
    requires EndOf(e.(readers := e.readers[id := rd']), id) == EndOf(e, id).(reader := Some(rd'))
    requires SentView(e.(readers := e.readers[id := rd']), id) == SentView(e, id)
    ensures LinkOk(e.(readers := e.readers[id := rd']), id, px, py)
  {
    hide Arrived, Fold, Known, Local, CanSend;
    assert rd.queue != [] && (rd'.finSeen || HasFin(rd'.queue)) ==> rd.finSeen || HasFin(rd.queue);
  }

  lemma StopLink(e: Endpoint, a: Action, id: StreamId, px: View, py: View)
    requires LinkOk(e, id, px, py) && (a.StopRead? || a.DropReader?)
    ensures LinkOk(Step(e, a), id, px, py)
  {
    hide LinkInv, EndOf, SentView, Known, Local, StopRecv;
    if a.id !in e.readers { return; }
    var rd := e.readers[a.id].(stopSent := true);
    var e1 := if a.StopRead? then e.(readers := e.readers[a.id := rd]) else e.(readers := e.readers - {a.id});
    if a.StopRead? { SetReader(e, a.id, rd, id); } else { DroppedReader(e, a.id, id); }
    StopRecvProjection(e1, a.id, id);
    StoppedLink(e, Step(e, a), a.id, if a.StopRead? then Some(rd) else None, id, px, py);
  }

  lemma DroppedReader(e: Endpoint, j: StreamId, id: StreamId)
    ensures var e' := e.(readers := e.readers - {j});
            && EndOf(e', id) == (if j == id then EndOf(e, id).(reader := None) else EndOf(e, id))
            && SentView(e', id) == SentView(e, id)
  {
    hide Known, Local, Fold;
    SameFrontiers(e, e.(readers := e.readers - {j}), id);
  }

  lemma StoppedEndLink(id: StreamId, server: bool, x: End, px: View, sx: View, py: View, reader: Option<Reader>)
    requires LinkInv(id, server, x, px, sx, py) && x.reader.Some?
    requires reader.None? || reader == Some(x.reader.value.(stopSent := true))
    ensures LinkInv(id, server, StoppedEnd(x, reader), px, sx, py)
  {
    hide Arrived, HasFin, CanSend;
    if reader.Some? { ArrivedSame(x.reader.value, reader.value); }
  }

  lemma StoppedLink(e: Endpoint, e': Endpoint, j: StreamId, reader: Option<Reader>, id: StreamId, px: View, py: View)
    requires LinkOk(e, id, px, py) && SameRole(e, e') && SentView(e', id) == SentView(e, id) && j in e.readers
    requires reader.None? || reader == Some(e.readers[j].(stopSent := true))
    requires EndOf(e', id) == if j == id then StoppedEnd(EndOf(e, id), reader) else EndOf(e, id)
    ensures LinkOk(e', id, px, py)
  {
    hide LinkInv, SentView, StoppedEnd, Known, Local;
    if j == id { StoppedEndLink(id, e.isServer, EndOf(e, id), px, SentView(e, id), py, reader); }
  }

  lemma CloseLink(e: Endpoint, id: StreamId, px: View, py: View)
    requires BaseLink(EndOf(e, id), px, SentView(e, id), py)
    ensures LinkOk(CloseAll(e), id, px, py)
  {
    hide ReaderLink, Fold, Known, CanSend;
    SameFrontiers(e, CloseAll(e), id);
  }

  lemma ErrorLink(e: Endpoint, code: nat, reason: string, room: bool, id: StreamId, px: View, py: View)
    requires BaseLink(EndOf(e, id), px, SentView(e, id), py)
    ensures LinkOk(ProtocolError(e, code, reason, room), id, px, py)
  {
    hide BaseLink, LinkInv, EndOf, SentView, Enqueue, CloseAll, Ascii;
    var f := ConnectionClose(code, Ascii(reason));
    var told := if room then Enqueue(e, f) else e;
    if room {
      EnqueueProjection(e, f, id);
      EnqueueView(e, f, id);
    }
    CloseLink(told, id, px, py);
    ErrorFieldLink(e, code, reason, room, told, id);
  }

  lemma ErrorFieldLink(e: Endpoint, code: nat, reason: string, room: bool, told: Endpoint, id: StreamId)
    requires told == if room then Enqueue(e, ConnectionClose(code, Ascii(reason))) else e
    ensures var e' := ProtocolError(e, code, reason, room);
            EndOf(e', id) == EndOf(CloseAll(told), id) && SentView(e', id) == SentView(CloseAll(told), id)
  {
    hide Fold, Known, Local, Ascii;
    SameFrontiers(CloseAll(told), ProtocolError(e, code, reason, room), id);
  }

  lemma ConsumeLink(e: Endpoint, j: StreamId, n: nat, id: StreamId, px: View, py: View)
    requires LinkOk(e, id, px, py) && PeerOk(e, id, px, py)
    ensures LinkOk(DoConsume(e, j, n), id, px, py)
  {
    hide LinkInv, EndOf, SentView, Known, Local, QueueCredit, Target, PeerOk;
    if j !in e.readers || n == 0 || n > |e.readers[j].pending| { return; }
    var rd, rd1 := e.readers[j], Handed(e.readers[j], n);
    var target := Target(e.limits.initialStreamWindow, rd1.consumed);
    HandedArrived(rd, n);
    if target <= rd1.granted || target - rd1.granted < e.limits.windowUpdateThreshold || rd1.finished || rd1.stopSent {
      SetReader(e, j, rd1, id);
      if j == id { SameBytesLink(e, rd1, id, px, py); }
    } else {
      var rd2 := rd1.(granted := target);
      ArrivedSame(rd1, rd2);
      GrantLink(e, j, rd2, id, px, py);
    }
  }

  lemma SameBytesLink(e: Endpoint, rd': Reader, id: StreamId, px: View, py: View)
    requires LinkOk(e, id, px, py) && id in e.readers
    requires var rd := e.readers[id];
             Arrived(rd') == Arrived(rd) && rd'.stopSent == rd.stopSent && rd'.queue == rd.queue
                 && rd'.finSeen == rd.finSeen
    ensures LinkOk(e.(readers := e.readers[id := rd']), id, px, py)
  {
    hide Arrived, Fold, Known, Local, CanSend, HasFin;
    SetReader(e, id, rd', id);
  }

  /** A larger limit and another pending credit change nothing between the two ends. */
  lemma GrantedLink(id: StreamId, server: bool, x: End, px: View, sx: View, py: View, rd: Reader, credit: Option<nat>)
    requires LinkInv(id, server, x, px, sx, py) && x.reader.Some? && Arrived(rd) == Arrived(x.reader.value)
    requires rd.stopSent == x.reader.value.stopSent && rd.queue == x.reader.value.queue
             && rd.finSeen == x.reader.value.finSeen
    requires credit.Some? && x.local ==> py.begun
    ensures LinkInv(id, server, x.(reader := Some(rd), stream := RaisedStream(x.stream, rd), credit := credit), px, sx,
              py)
  {
    hide Arrived, HasFin, CanSend;
  }

  lemma CreditDroppedLink(id: StreamId, server: bool, x: End, px: View, sx: View, py: View)
    requires LinkInv(id, server, x, px, sx, py)
    ensures LinkInv(id, server, x.(credit := None), px, sx, py)
  {
    hide ReaderLink, Arrived, CanSend;
  }

  /** Whoever has read something from a stream of its own knows that the peer processed the open. */
  lemma ReadMeansBegun(e: Endpoint, id: StreamId, px: View, py: View)
    requires LinkOk(e, id, px, py) && PeerOk(e, id, px, py) && id in e.readers && e.readers[id].pending != []
    ensures Local(e, id) ==> py.begun
  {
    assert |Arrived(e.readers[id])| > 0;
    hide Arrived, Fold, Known, CanSend, HasFin, Local;
  }

  lemma GrantLink(e: Endpoint, j: StreamId, rd': Reader, id: StreamId, px: View, py: View)
    requires LinkOk(e, id, px, py) && PeerOk(e, id, px, py) && j in e.readers && e.readers[j].pending != []
    requires var rd := e.readers[j];
             Arrived(rd') == Arrived(rd) && rd'.stopSent == rd.stopSent && rd'.queue == rd.queue
                 && rd'.finSeen == rd.finSeen
    ensures LinkOk(QueueCredit(Raised(e, j, rd'), j, rd'.granted), id, px, py)
  {
    hide Arrived, SentView, Known, QueueCredit, Raised, LinkInv, Local, PeerOk, CloseAll;
    var e1 := Raised(e, j, rd');
    var e' := QueueCredit(e1, j, rd'.granted);
    var x, sx := EndOf(e, id), SentView(e, id);
    RaisedProjection(e, j, rd', id);
    QueueCreditEffect(e1, j, rd'.granted, id);
    if j == id {
      ReadMeansBegun(e, id, px, py);
      GrantedLink(id, e.isServer, x, px, sx, py, rd', x.credit);
    }
    if e' == CloseAll(e1) {
      CloseOwnLink(e1, id, px, py);
    } else {
      SameLogView(e1, e', id);
      SameFrontiers(e1, e', id);
      if j == id {
        GrantedLink(id, e.isServer, x, px, sx, py, rd', EndOf(e', id).credit);
      } else if id !in e'.pendingCredit {
        CreditDroppedLink(id, e.isServer, x, px, sx, py);
      }
    }
  }

  lemma QueueStopLink(e: Endpoint, j: StreamId, code: nat, id: StreamId, px: View, py: View)
    requires LinkOk(e, id, px, py)
    ensures LinkOk(DoQueueStop(e, j, code), id, px, py)
  {
    EnqueueView(e, StopSending(j, code), id);
    EnqueueProjection(e, StopSending(j, code), id);
    hide Fold, Known, Local, CanSend, ReaderLink, Enqueue;
  }

  lemma SendCreditLink(e: Endpoint, j: StreamId, id: StreamId, px: View, py: View)
    requires LinkOk(e, id, px, py) && PeerOk(e, id, px, py) && StreamOk(e, id)
    ensures LinkOk(DoSendCredit(e, j), id, px, py)
  {
    hide Fold, Known, CanSend, ReaderLink, FlowInv, ReaderInv, StreamInv;
    SendCreditView(e, j, id);
    SameFrontiers(e, DoSendCredit(e, j), id);
  }

  lemma SendQueuedLink(e: Endpoint, id: StreamId, px: View, py: View)
    requires LinkOk(e, id, px, py)
    ensures LinkOk(DoSendQueued(e), id, px, py)
  {
    hide EndOf, SentView, LinkInv, DoSendQueued;
    SendQueuedView(e, id);
  }

  /** A stream this endpoint has not opened yet is untouched by the peer. */
  lemma UnopenedByPeer(e: Endpoint, id: StreamId, px: View, py: View)
    requires PeerOk(e, id, px, py) && Local(e, id) && !SentView(e, id).begun
    ensures px.grant == 0 && px.bytes == [] && px.ended.Live?
  {
    hide Fold, Local, Known;
  }

  lemma OpenUniLink(e: Endpoint, queued: bool, id: StreamId, px: View, py: View)
    requires LinkOk(e, id, px, py) && PeerOk(e, id, px, py) && StreamOk(e, id)
    ensures LinkOk(DoOpenUni(e, queued), id, px, py)
  {
    hide LinkInv, PeerOk, StreamOk, EndOf, SentView, RegisterSend, Enqueue;
    hide CanSend, Known, Local, DirOf, ByServer, Counter, Advanced;
    if e.closed { return; }
    var e1 := e.(nextUni := e.nextUni + 1);
    OpenFrontier(e, Uni);
    AdvanceLink(e, e1, true, Uni, e.nextUni, id, px, py);
    var got := NewId(e.nextUni, e.isServer, Uni);
    if got.None? || !SendSlotFree(e, got.value) || !queued { return; }
    var j := got.value;
    OpenedFacts(e, e1, Uni, j, id);
    AdvanceKeeps(e, e1, true, Uni, e.nextUni, id);
    var e2 := RegisterSend(e1, j);
    RegisterSendProjection(e1, j, id);
    EnqueueProjection(e2, OpenUni(j), id);
    EnqueueView(e2, OpenUni(j), id);
    if id == j {
      UnopenedByPeer(e, id, px, py);
      LocalUniDirection(e, id);
      NewLink(id, e.isServer, e.limits, EndOf(e, id), SentView(e, id), px, py,
              ObserveOpen(id, e.isServer, SentView(e, id), j, Uni), NewReader(e), true, false);
    } else {
      PassedLink(id, e.isServer, EndOf(e1, id), px, SentView(e, id), py);
    }
  }

  /** Link of a stream just opened or accepted, given that the peer has not used it yet. */
  lemma NewLink(id: StreamId, server: bool, lim: Limits, x: End, v: View, px: View, py: View, w: View, rd: Reader,
      sends: bool, receives: bool)
    requires Unused(x, v) && !x.closed && (!x.local ==> px.passed)
    requires px.grant == 0 && px.bytes == [] && px.ended.Live?
    requires rd == Reader([], [], 0, lim.initialStreamWindow, false, false, [], false)
    requires w == BLANK.(passed := w.passed, begun := x.local, active := w.active, grant := w.grant)
    requires (if x.local then w.begun else px.begun) && receives == CanReceive(id, server)
    requires x.local && receives ==> w.grant > 0
    ensures LinkInv(id, server, NewEnd(x, lim, rd, sends, receives), px, w, py)
  {
    hide CanSend;
  }

  lemma PassedLink(id: StreamId, server: bool, x: End, px: View, v: View, py: View)
    requires LinkInv(id, server, x, px, v, py)
    ensures LinkInv(id, server, x, px, v.(passed := true), py)
  {
    hide ReaderLink, CanSend;
  }

  /** Moving an own frontier concerns no link: only streams of the peer tie their frontier to it. */
  lemma AdvanceLink(e: Endpoint, e': Endpoint, local: bool, dir: Dir, upTo: nat, id: StreamId, px: View, py: View)
    requires LinkOk(e, id, px, py) && StreamOk(e, id) && local && Advanced(e, e', local, dir, upTo)
    requires e' == e.(nextUni := e'.nextUni, nextBi := e'.nextBi,
                      nextPeerUni := e'.nextPeerUni, nextPeerBi := e'.nextPeerBi)
    ensures LinkOk(e', id, px, py)
  {
    hide Known, Advanced, StreamOk, SentView, ReaderLink, CanSend, DirOf, Counter;
    AdvancedKnown(e, e', local, dir, upTo, id);
    AdvanceKeeps(e, e', local, dir, upTo, id);
  }

  /** Given up halfway through its open, a stream is unused as before, though its open frame is on its way. */
  lemma HalfLink(id: StreamId, server: bool, x: End, v: View, px: View, py: View, w: View)
    requires Unused(x, v) && x.local && px.grant == 0 && px.bytes == []
    requires w == BLANK.(passed := true, begun := true, active := true)
    ensures LinkInv(id, server, x, px, w, py)
  {
    hide CanSend;
  }

  lemma HalfOpenLink(e: Endpoint, v: View, x: End, j: StreamId, id: StreamId, px: View, py: View)
    requires LinkOk(e, id, px, py) && SentView(e, id) == v && EndOf(e, id) == x.(known := Known(e, id))
    requires id == j ==> Unused(x, v) && x.local && px.grant == 0 && px.bytes == []
    requires var w := ObserveOpen(id, e.isServer, v, j, Bi);
             if id == j then w == BLANK.(passed := true, begun := true, active := true)
             else w == v || w == v.(passed := true)
    ensures LinkOk(Enqueue(e, OpenBi(j)), id, px, py)
  {
    hide SentView, EndOf, Known, Enqueue, ObserveOpen, LinkInv;
    EnqueueProjection(e, OpenBi(j), id);
    EnqueueView(e, OpenBi(j), id);
    if id == j {
      HalfLink(id, e.isServer, EndOf(e, id), v, px, py, ObserveOpen(id, e.isServer, v, j, Bi));
    } else {
      PassedLink(id, e.isServer, EndOf(e, id), px, v, py);
    }
  }

  lemma OpenBiLink(e: Endpoint, queued: bool, credited: bool, id: StreamId, px: View, py: View)
    requires Valid(e.limits) && LinkOk(e, id, px, py) && PeerOk(e, id, px, py) && StreamOk(e, id)
    ensures LinkOk(DoOpenBi(e, queued, credited), id, px, py)
  {
    hide LinkInv, PeerOk, StreamOk, EndOf, SentView, RegisterSend, RegisterRecv;
    hide Enqueue, CanSend, Known, Local, DirOf, ByServer, Counter, Advanced;
    if e.closed { return; }
    var e1 := e.(nextBi := e.nextBi + 1);
    OpenFrontier(e, Bi);
    AdvanceLink(e, e1, true, Bi, e.nextBi, id, px, py);
    var got := NewId(e.nextBi, e.isServer, Bi);
    if got.None? || !SendSlotFree(e, got.value) || !queued { return; }
    var j := got.value;
    OpenedFacts(e, e1, Bi, j, id);
    AdvanceKeeps(e, e1, true, Bi, e.nextBi, id);
    if !credited {
      if id == j { UnopenedByPeer(e, id, px, py); }
      HalfOpenLink(e1, SentView(e, id), EndOf(e, id), j, id, px, py);
      return;
    }
    var e2 := RegisterSend(e1, j);
    var e3 := RegisterRecv(e2, j);
    var e4 := Enqueue(e3, OpenBi(j));
    RegisterSendProjection(e1, j, id);
    RegisterRecvProjection(e2, j, id);
    EnqueueProjection(e3, OpenBi(j), id);
    EnqueueView(e3, OpenBi(j), id);
    EnqueueProjection(e4, InitialCredit(e, j), id);
    EnqueueView(e4, InitialCredit(e, j), id);
    if id == j {
      UnopenedByPeer(e, id, px, py);
      WindowPositive(e.limits);
      NewLink(id, e.isServer, e.limits, EndOf(e, id), SentView(e, id), px, py,
              Observe(id, e.isServer, ObserveOpen(id, e.isServer, SentView(e, id), j, Bi), InitialCredit(e, j)),
              NewReader(e), true, true);
    } else {
      PassedLink(id, e.isServer, EndOf(e1, id), px, SentView(e, id), py);
    }
  }

  lemma OwnActions(a: Action)
    ensures a.Reserve? || a.Commit? || a.Release? || a.QueueFin? || a.RemoveFlow? || a.QueueReset? || a.DropWriter?
            ==> SendAction(a)
    ensures !Inbound(a) ==> !a.Receive? && !a.Reject?
  {
  }

  /** Every action of its own keeps an endpoint's link to its peer. */
  lemma OwnActionLink(e: Endpoint, a: Action, id: StreamId, px: View, py: View)
    requires Valid(e.limits)
    requires LinkOk(e, id, px, py) && PeerOk(e, id, px, py) && StreamOk(e, id) && StreamOk(Step(e, a), id)
    requires !Inbound(a)
    ensures LinkOk(Step(e, a), id, px, py)
  {
    hide *;
    StepForm(e, a);
    OwnActions(a);
    match a
    case OpenUniStream(queued) => OpenUniLink(e, queued, id, px, py);
    case OpenBiStream(queued, credited) => OpenBiLink(e, queued, credited, id, px, py);
    case Reserve(_, _) => SendActionLink(e, a, id, px, py);
    case Commit(_) => SendActionLink(e, a, id, px, py);
    case Release(_) => SendActionLink(e, a, id, px, py);
    case QueueFin(_) => SendActionLink(e, a, id, px, py);
    case RemoveFlow(_) => SendActionLink(e, a, id, px, py);
    case QueueReset(_, _) => SendActionLink(e, a, id, px, py);
    case DropWriter(_) => SendActionLink(e, a, id, px, py);
    case AcceptUni => AcceptLink(e, id, px, py);
    case AcceptBi => AcceptLink(e, id, px, py);
    case PopEvent(j) => PopLink(e, j, id, px, py);
    case Consume(j, n) => ConsumeLink(e, j, n, id, px, py);
    case StopRead(_) => StopLink(e, a, id, px, py);
    case QueueStop(j, code) => QueueStopLink(e, j, code, id, px, py);
    case DropReader(_) => StopLink(e, a, id, px, py);
    case SendQueued => SendQueuedLink(e, id, px, py);
    case SendCredit(j) => SendCreditLink(e, j, id, px, py);
    case CloseSession => CloseOwnLink(e, id, px, py);
    case _ =>
  }

  lemma CloseOwnLink(e: Endpoint, id: StreamId, px: View, py: View)
    requires LinkOk(e, id, px, py)
    ensures LinkOk(CloseAll(e), id, px, py)
  {
    hide BaseLink, EndOf, SentView, CloseAll;
    CloseLink(e, id, px, py);
  }

  lemma AcceptLink(e: Endpoint, id: StreamId, px: View, py: View)
    requires LinkOk(e, id, px, py)
    ensures LinkOk(DoAcceptUni(e), id, px, py) && LinkOk(DoAcceptBi(e), id, px, py)
  {
    hide LinkInv, EndOf, SentView;
    if e.acceptUni != [] { AcceptQueuesProjection(e, e.acceptUni[1..], e.acceptBi, id); }
    if e.acceptBi != [] { AcceptQueuesProjection(e, e.acceptUni, e.acceptBi[1..], id); }
  }

  // ---- Delivering a frame ----

  /** An open that fits the channel's history passes every check of code 1. */
  lemma OpenPlaced(e: Endpoint, j: StreamId, dir: Dir, px: View, py: View)
    requires LinkOk(e, j, px, py) && Shaped(j, !e.isServer, px) && !ObserveOpen(j, !e.isServer, px, j, dir).bad
    ensures OpenViolation(e, j, dir).None? && j !in e.streams && j !in e.sendFlows && DirOf(j) == dir
    ensures !px.passed && Unused(EndOf(e, j), SentView(e, j))
  {
    hide Fold, Known, ReaderLink, CanSend, DirOf;
  }

  /** Passing the peer's frontier is what the view records as passed. */
  lemma PassedBase(e: Endpoint, j: StreamId, id: StreamId, px: View, py: View)
    requires LinkOk(e, id, px, py) && StreamOk(e, id) && !Local(e, j) && !Known(e, j)
    requires id == j ==> Shaped(j, !e.isServer, px) && Unused(EndOf(e, j), SentView(e, j))
    ensures BaseLink(EndOf(PassPeerFrontier(e, j), id), ObserveOpen(id, !e.isServer, px, j, DirOf(j)),
                     SentView(PassPeerFrontier(e, j), id), py)
    ensures id != j ==> LinkOk(PassPeerFrontier(e, j), id, ObserveOpen(id, !e.isServer, px, j, DirOf(j)), py)
    ensures id == j ==> && Unused(EndOf(PassPeerFrontier(e, j), j), SentView(e, j))
                        && EndOf(PassPeerFrontier(e, j), j).known
  {
    hide Fold, Known, CanSend, DirOf, Counter, PassPeerFrontier, SentView, StreamOk, EndOf, Arrived, HasFin;
    PassedFacts(e, j, id);
    EndRole(e, id);
    EndRole(e, j);
  }

  lemma EndRole(e: Endpoint, id: StreamId)
    ensures EndOf(e, id).local == Local(e, id) == (ByServer(id) == e.isServer) && EndOf(e, id).closed == e.closed
    ensures EndOf(e, id).known == Known(e, id)
  {
    hide Known;
  }

  lemma OpenIsUnknown(e: Endpoint, j: StreamId, dir: Dir)
    requires OpenViolation(e, j, dir).None?
    ensures !Local(e, j) && !Known(e, j)
  {
  }

  /** Up to where an open is turned down or handed over. */
  lemma OpenPassed(e: Endpoint, j: StreamId, dir: Dir, queued: bool, id: StreamId, px: View, py: View)
    requires LinkOk(e, id, px, py) && StreamOk(e, id) && !e.closed
    requires !Local(e, j) && !Known(e, j) && DirOf(j) == dir
    requires id == j ==> && Shaped(j, !e.isServer, px) && !px.bad && !px.early && !px.passed
                         && Unused(EndOf(e, j), SentView(e, j))
    ensures var e1, px' := PassPeerFrontier(e, j), ObserveOpen(id, !e.isServer, px, j, dir);
            var e2 := if queued then Enqueue(e1, InitialCredit(e1, j)) else e1;
            && BaseLink(EndOf(e1, id), px', SentView(e1, id), py) && BaseLink(EndOf(e2, id), px', SentView(e2, id), py)
            && LinkOk(HandOver(e2, j), id, px', py)
  {
    hide Fold, Known, Local, CanSend, ByServer, Counter, PassPeerFrontier, SentView, StreamOk, EndOf, ReaderLink;
    hide Enqueue;
    hide HandOver, Observe;
    var e1, px' := PassPeerFrontier(e, j), ObserveOpen(id, !e.isServer, px, j, dir);
    PassedBase(e, j, id, px, py);
    PassedFacts(e, j, id);
    EndRole(e1, id);
    EndRole(e1, j);
    CreditViewFacts(e1, j, id);
    EnqueueProjection(e1, InitialCredit(e1, j), id);
    EnqueueView(e1, InitialCredit(e1, j), id);
    HandedOverLink(e1, j, queued, id, px', py);
  }

  lemma OpenDelivered(e: Endpoint, j: StreamId, dir: Dir, queued: bool, room: bool, id: StreamId, px: View, py: View)
    requires LinkOk(e, id, px, py) && StreamOk(e, id) && !e.closed
    requires OpenViolation(e, j, dir).None? && j !in e.streams && j !in e.sendFlows && DirOf(j) == dir
    requires id == j ==> && Shaped(j, !e.isServer, px) && !px.bad && !px.early && !px.passed
                         && Unused(EndOf(e, j), SentView(e, j))
    ensures LinkOk(ReceiveOpen(e, j, dir, queued, room), id, ObserveOpen(id, !e.isServer, px, j, dir), py)
  {
    hide Known, Local, OpenViolation, SentView, StreamOk, EndOf, Enqueue, HandOver, HandOverViolation, ProtocolError;
    hide LinkOk, BaseLink, Unused, Shaped, ObserveOpen, Counter;
    OpenIsUnknown(e, j, dir);
    OpenPassed(e, j, dir, queued, id, px, py);
    var e1, px' := PassPeerFrontier(e, j), ObserveOpen(id, !e.isServer, px, j, dir);
    var e2 := if queued then Enqueue(e1, InitialCredit(e1, j)) else e1;
    if |e1.streams| >= e1.limits.maxOpenStreams {
      ErrorLink(e1, 3, "too many open streams", room, id, px', py);
    } else if HandOverViolation(e1, j).Some? {
      ErrorLink(e2, 3, HandOverViolation(e1, j).value, room, id, px', py);
    }
  }

  lemma HandedOverLink(e1: Endpoint, j: StreamId, queued: bool, id: StreamId, px: View, py: View)
    requires !Local(e1, j) && Known(e1, j) && !e1.closed
    requires id != j ==> LinkOk(e1, id, px, py)
    requires id == j ==> Unused(EndOf(e1, j), SentView(e1, j)) && px.begun && px.passed
                         && px.grant == 0 && px.bytes == [] && px.ended.Live?
    ensures LinkOk(HandOver(if queued then Enqueue(e1, InitialCredit(e1, j)) else e1, j), id, px, py)
  {
    hide Fold, Known, Local, CanSend, ByServer, DirOf, SentView, EndOf, Enqueue, HandOver, Observe, LinkInv;
    var e2 := if queued then Enqueue(e1, InitialCredit(e1, j)) else e1;
    EndRole(e1, id);
    CreditViewFacts(e1, j, id);
    EnqueueProjection(e1, InitialCredit(e1, j), id);
    EnqueueView(e1, InitialCredit(e1, j), id);
    HandOverProjection(e2, j, id);
    if id == j {
      NewLink(id, e1.isServer, e1.limits, EndOf(e1, id), SentView(e1, id), px, py, SentView(e2, id),
              NewReader(e1), DirOf(j).Bi?, true);
    }
  }

  /** What the channel's history guarantees about the next frame for its own stream. */
  predicate Placed(e: Endpoint, f: Frame, j: StreamId, px: View, py: View) {
    var px' := Observe(j, !e.isServer, px, f);
    && !px'.bad && !px'.early && Shaped(j, !e.isServer, px)
    && (Local(e, j) ==> py.begun)
    && |px'.bytes| <= py.grant && Before(py, SentView(e, j))
  }

  /** An own bidirectional stream that was given up halfway through its open: its credit was never announced. */
  predicate Half(e: Endpoint, id: StreamId) {
    Local(e, id) && DirOf(id).Bi? && SentView(e, id).begun && SentView(e, id).grant == 0
  }

  /** Receive state is there for every data frame, unless it is for a stream that was given up halfway through its
      open, and it has credit left for it: otherwise the branches for an unknown stream, for overflow and for exceeded
      flow control cannot be taken. */
  lemma DataPlaced(e: Endpoint, j: StreamId, data: seq<Byte>, fin: bool, px: View, py: View)
    requires LinkOk(e, j, px, py) && StreamOk(e, j) && !e.closed && !Half(e, j)
    requires Placed(e, Stream(j, data, fin), j, px, py)
    ensures j in e.streams && e.streams[j].received + |data| <= e.streams[j].maxData
    ensures |data| <= e.limits.initialStreamWindow
    ensures if |data| > e.limits.maxStreamDataPerFrame
            then StreamViolation(e, j, data) == Some((2, "stream data too large"))
            else StreamViolation(e, j, data) in {None, Some((3, "receive queue full"))}
  {
    hide Fold, Known, Local, ByServer, DirOf, ReaderLink, FlowInv, ReaderInv, Arrived, NoFin;
    EndRole(e, j);
    assert CanReceive(j, e.isServer);
    assert j in e.streams;
  }

  /** On such a stream the peer can only have queued an empty FIN, and that finds no receive state. */
  lemma HalfPlaced(e: Endpoint, j: StreamId, data: seq<Byte>, fin: bool, px: View, py: View)
    requires LinkOk(e, j, px, py) && StreamOk(e, j) && !e.closed && Half(e, j)
    requires Placed(e, Stream(j, data, fin), j, px, py)
    ensures j !in e.streams && data == [] && px.ended.Live?
    ensures StreamViolation(e, j, data) == Some((2, "Stream data on unknown stream"))
  {
    hide Fold, Known, Local, ByServer, DirOf, ReaderLink, FlowInv, ReaderInv, Arrived, NoFin;
    EndRole(e, j);
  }

  /** A data frame that is turned down ends the session with the code of what is wrong with it. */
  lemma DataRefused(e: Endpoint, j: StreamId, data: seq<Byte>, fin: bool, room: bool, id: StreamId, px: View,
      py: View)
    requires LinkOk(e, id, px, py) && !e.closed && (id == j ==> px.ended.Live?)
    requires StreamViolation(e, j, data).Some?
    ensures LinkOk(ReceiveStream(e, j, data, fin, room), id, Observe(id, !e.isServer, px, Stream(j, data, fin)), py)
    ensures ReceiveStream(e, j, data, fin, room).error == Some(StreamViolation(e, j, data).value.0)
  {
    hide LinkOk, BaseLink, StreamViolation, Observe, Ascii;
    GrowBase(e, j, data, fin, id, px, py);
    var v := StreamViolation(e, j, data).value;
    ErrorLink(e, v.0, v.1, room, id, Observe(id, !e.isServer, px, Stream(j, data, fin)), py);
  }

  lemma DataDelivered(e: Endpoint, j: StreamId, data: seq<Byte>, fin: bool, room: bool, id: StreamId, px: View,
      py: View)
    requires LinkOk(e, id, px, py) && StreamOk(e, id) && !e.closed && j in e.streams
    requires id == j ==> !Observe(id, !e.isServer, px, Stream(j, data, fin)).bad
    ensures LinkOk(ReceiveStream(e, j, data, fin, room), id, Observe(id, !e.isServer, px, Stream(j, data, fin)), py)
  {
    hide StreamOk, LinkOk, ProtocolError, Accounted, StreamViolation;
    if StreamViolation(e, j, data).Some? {
      DataRefused(e, j, data, fin, room, id, px, py);
    } else {
      AccountedLink(e, j, data, fin, id, px, py);
    }
  }

  /** Data that no longer reaches the reader only extends what was processed. */
  lemma GrowBase(e: Endpoint, j: StreamId, data: seq<Byte>, fin: bool, id: StreamId, px: View, py: View)
    requires LinkOk(e, id, px, py)
    requires id == j ==> px.ended.Live?
    ensures BaseLink(EndOf(e, id), Observe(id, !e.isServer, px, Stream(j, data, fin)), SentView(e, id), py)
  {
    hide Fold, Known, Local, CanSend, Ready, Arrived, HasFin;
  }

  lemma AccountedLink(e: Endpoint, j: StreamId, data: seq<Byte>, fin: bool, id: StreamId, px: View, py: View)
    requires LinkOk(e, id, px, py) && StreamOk(e, id) && !e.closed && j in e.streams
    requires id == j ==> px.ended.Live?
    ensures LinkOk(Accounted(e, j, data, fin), id, Observe(id, !e.isServer, px, Stream(j, data, fin)), py)
  {
    AccountedProjection(e, j, data, fin, id);
    hide Fold, Known, Local, Accounted, LinkInv, StreamOk;
    if id == j { ArrivalLink(id, e.isServer, e.limits, EndOf(e, id), px, SentView(e, id), py, data, fin); }
  }

  lemma ArrivalLink(id: StreamId, server: bool, lim: Limits, x: End, px: View, sx: View, py: View, data: seq<Byte>,
      fin: bool)
    requires LinkInv(id, server, x, px, sx, py) && EndInv(id, server, lim, x, sx) && x.stream.Some? && px.ended.Live?
    ensures LinkInv(id, server, Arrival(x, data, fin), Observe(id, !server, px, Stream(id, data, fin)), sx, py)
  {
    hide CanSend, Ready, FlowInv, ReaderInv, NoFin, HasFin, Queued;
    if x.reader.Some? {
      QueuedAppend(x.reader.value.queue, RecvEvent(data, fin));
      FinAppend(x.reader.value.queue, RecvEvent(data, fin));
    }
  }

  lemma FinAppend(q: seq<RecvEvent>, ev: RecvEvent)
    ensures HasFin(q + [ev]) <==> HasFin(q) || ev.fin
  {
    if HasFin(q) {
      var i :| 0 <= i < |q| && q[i].fin;
      assert (q + [ev])[i].fin;
    }
    if ev.fin { assert (q + [ev])[|q|].fin; }
  }

  /** Terminal frames for a stream that is gone fall below its frontier. */
  lemma TerminalPlaced(e: Endpoint, f: Frame, j: StreamId, px: View, py: View)
    requires LinkOk(e, j, px, py) && StreamOk(e, j) && Placed(e, f, j, px, py)
    requires f.ResetStream? || f.StopSending?
    requires f.id == j
    ensures IsRetiredDirection(e, j, f.ResetStream?)
  {
    hide Fold, Known, ReaderLink, FlowInv, ReaderInv, StreamInv;
    EndRole(e, j);
    FoldShaped(j, e.isServer, Log(e));
  }

  lemma RemovedRecv(e: Endpoint, j: StreamId, id: StreamId)
    ensures EndOf(RemoveRecv(e, j), id) == (if j == id then EndOf(e, id).(stream := None) else EndOf(e, id))
    ensures SentView(RemoveRecv(e, j), id) == SentView(e, id)
    ensures EndOf(e, j).stream.None? <==> j !in e.streams
  {
    hide Fold, Known, Local;
    SameFrontiers(e, RemoveRecv(e, j), id);
  }

  lemma ResetLink(id: StreamId, server: bool, x: End, px: View, sx: View, py: View, code: nat)
    requires LinkInv(id, server, x, px, sx, py)
    ensures LinkInv(id, server, x.(stream := None), Observe(id, !server, px, ResetStream(id, code)), sx, py)
  {
    hide Arrived, Ready, HasFin, CanSend;
  }

  /** Whether or not the receive state was still there, afterwards it is gone. */
  lemma ResetDelivered(e: Endpoint, j: StreamId, code: nat, id: StreamId, px: View, py: View)
    requires LinkOk(e, id, px, py)
    ensures LinkOk(RemoveRecv(e, j), id, Observe(id, !e.isServer, px, ResetStream(j, code)), py)
    ensures j !in e.streams ==> LinkOk(e, id, Observe(id, !e.isServer, px, ResetStream(j, code)), py)
  {
    hide LinkInv, EndOf, SentView, RemoveRecv, Ready, CanSend;
    RemovedRecv(e, j, id);
    if j == id { ResetLink(id, e.isServer, EndOf(e, id), px, SentView(e, id), py, code); }
  }

  lemma StopDelivered(e: Endpoint, j: StreamId, code: nat, id: StreamId, px: View, py: View)
    requires LinkOk(e, id, px, py)
    ensures LinkOk(e, id, Observe(id, !e.isServer, px, StopSending(j, code)), py)
  {
    hide Fold, Known, Local, Arrived, Ready, HasFin, CanSend;
  }

  /** Retiring a flow and answering with a reset is a change of the send side alone. */
  lemma StopAnswerSide(e: Endpoint, j: StreamId, code: nat, id: StreamId)
    requires !SentView(e, id).bad && j in e.sendFlows
    requires !SentView(Enqueue(DoRemoveFlow(e, j), ResetStream(j, code)), id).bad
    ensures var e2 := Enqueue(DoRemoveFlow(e, j), ResetStream(j, code));
            SendSide(EndOf(e, id), SentView(e, id), EndOf(e2, id), SentView(e2, id))
  {
    hide EndOf, SentView, DoRemoveFlow, Enqueue, Ready, CanSend;
    var e1 := DoRemoveFlow(e, j);
    RemovedFlow(e, j, id);
    EnqueueProjection(e1, ResetStream(j, code), id);
    EnqueueView(e1, ResetStream(j, code), id);
  }

  lemma StopAnswered(e: Endpoint, j: StreamId, code: nat, id: StreamId, px: View, py: View)
    requires LinkOk(e, id, px, py) && StreamOk(e, id) && StreamOk(e, j) && j in e.sendFlows
    ensures LinkOk(Enqueue(DoRemoveFlow(e, j), ResetStream(j, code)), id, px, py)
  {
    hide LinkOk, StreamOk, DoRemoveFlow, Enqueue, EndOf, Fold, SendSide;
    var e2 := Enqueue(DoRemoveFlow(e, j), ResetStream(j, code));
    StopSendingKeeps(e, j, code, id);
    NotBad(e, id);
    NotBad(e2, id);
    StopAnswerSide(e, j, code, id);
    SendSideLink(e, e2, id, px, py);
  }

  /** A stop whose answer the queue refused ends the session. */
  lemma StopUnanswered(e: Endpoint, j: StreamId, id: StreamId, px: View, py: View)
    requires LinkOk(e, id, px, py) && StreamOk(e, id)
    ensures LinkOk(CloseAll(DoRemoveFlow(e, j)), id, px, py)
  {
    hide LinkInv, EndOf, SentView, DoRemoveFlow, CloseAll, SendSide, EndInv;
    var e1 := DoRemoveFlow(e, j);
    RemoveFlowKeeps(e, j, id);
    FlowOrWriterGone(e, j, id);
    SendSideLink(e, e1, id, px, py);
    CloseOwnLink(e1, id, px, py);
  }

  lemma RemovedFlow(e: Endpoint, j: StreamId, id: StreamId)
    ensures EndOf(DoRemoveFlow(e, j), id) == (if j == id then EndOf(e, id).(flow := None) else EndOf(e, id))
    ensures SentView(DoRemoveFlow(e, j), id) == SentView(e, id)
    ensures j in e.sendFlows ==> EndOf(e, j).flow.Some?
  {
    hide Fold, Known, Local;
    SameFrontiers(e, DoRemoveFlow(e, j), id);
  }

  /** A credit reaches the flow it is meant for. */
  lemma CreditDelivered(e: Endpoint, j: StreamId, max: nat, queued: bool, room: bool, id: StreamId, px: View, py: View)
    requires LinkOk(e, id, px, py)
    ensures LinkOk(HandleFrame(e, MaxStreamData(j, max), queued, room), id,
              Observe(id, !e.isServer, px, MaxStreamData(j, max)), py)
  {
    hide Fold, Known, Local, Arrived, HasFin, CanSend, Ready;
    if j in e.sendFlows { SetFlow(e, j, e.sendFlows[j].(maxData := Max(e.sendFlows[j].maxData, max)), id); }
  }
}
