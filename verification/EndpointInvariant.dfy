/** What one endpoint keeps, whatever its peer sends and however its tasks interleave. */
module EndpointInvariant {
  import opened VarInts
  import opened Frames
  import opened SessionLimits
  import opened Endpoints
  import opened Views

  /** Everything an endpoint holds about one stream. */
  datatype End = End(
    local: bool, known: bool,
    flow: Option<SendFlow>, writer: bool,
    stream: Option<RecvState>, reader: Option<Reader>, credit: Option<nat>,
    closed: bool)

  function Lookup<V>(m: map<StreamId, V>, id: StreamId): (r: Option<V>) {
    if id in m then Some(m[id]) else None
  }

  function EndOf(e: Endpoint, id: StreamId): (x: End) {
    End(Local(e, id), Known(e, id), Lookup(e.sendFlows, id), id in e.writers,
        Lookup(e.streams, id), Lookup(e.readers, id), Lookup(e.pendingCredit, id), e.closed)
  }

  function Queued(q: seq<RecvEvent>): (s: seq<Byte>) {
    if q == [] then [] else q[0].data + Queued(q[1..])
  }

  lemma {:induction false} QueuedAppend(q: seq<RecvEvent>, ev: RecvEvent)
    ensures Queued(q + [ev]) == Queued(q) + ev.data
  {
    if q == [] {
      assert q + [ev] == [ev];
    } else {
      QueuedAppend(q[1..], ev);
      assert (q + [ev])[1..] == q[1..] + [ev];
    }
  }

  /** All bytes that reached a reader, in order. */
  function Arrived(rd: Reader): (s: seq<Byte>) {
    rd.delivered + rd.pending + Queued(rd.queue)
  }

  predicate NoFin(q: seq<RecvEvent>) {
    forall i :: 0 <= i < |q| ==> !q[i].fin
  }

  predicate FinOnlyLast(q: seq<RecvEvent>) {
    forall i :: 0 <= i < |q| - 1 ==> !q[i].fin
  }

  // ---- The invariant of one stream ----

  /** Neither state nor handles: a stream that is not open, or that was given up halfway through its open. */
  predicate Bare(x: End) {
    x.flow.None? && !x.writer && x.stream.None? && x.reader.None? && x.credit.None?
  }

  predicate Unused(x: End, v: View) {
    Bare(x) && v == BLANK.(passed := v.passed)
  }

  /** A send flow accounts for exactly the bytes in the log plus the reserved chunk. */
  predicate FlowInv(lim: Limits, fl: SendFlow, bytes: seq<Byte>, ended: Ended) {
    && ended == (if fl.finQueued then Finished else Live)
    && |bytes| + |fl.reserved| == fl.sentData <= fl.maxData
    && (fl.finQueued ==> fl.reserved == [])
    && |fl.reserved| <= MaxChunk(lim)
  }

  predicate ReaderInv(lim: Limits, rd: Reader) {
    && rd.consumed == |rd.delivered| && |Arrived(rd)| <= MAX
    && lim.initialStreamWindow <= rd.granted <= Target(lim.initialStreamWindow, rd.consumed)
    && (!rd.finished && !rd.stopSent ==>
          Target(lim.initialStreamWindow, rd.consumed) < rd.granted + lim.windowUpdateThreshold)
    && FinOnlyLast(rd.queue) && (rd.finSeen ==> rd.finished) && (rd.finished ==> rd.queue == [])
  }

  /** Received bytes stay within the limit, which is at most a window ahead of them, and once any credit was announced
      for a stream that was not stopped, the newest grant is either pending or already in the log. */
  predicate StreamInv(lim: Limits, st: RecvState, reader: Option<Reader>, credit: Option<nat>, grant: nat) {
    && st.received <= st.maxData <= MAX && grant <= st.maxData && st.maxData <= st.received + lim.initialStreamWindow
    && (credit.Some? ==> credit.value <= st.maxData)
    && (reader.Some? ==> !reader.value.finished && NoFin(reader.value.queue) && reader.value.stopSent == st.stopped)
    && (st.stopped ==> credit.None? && (reader.Some? ==> |Arrived(reader.value)| <= st.received))
    && (!st.stopped ==>
          && reader.Some? && reader.value.granted == st.maxData && |Arrived(reader.value)| == st.received
          && (grant > 0 || credit.Some? ==> Max(grant, if credit.Some? then credit.value else 0) == st.maxData))
  }

  predicate EndInv(id: StreamId, server: bool, lim: Limits, x: End, v: View) {
    && !v.bad
    && (x.local ==> (v.passed ==> x.known) && (!v.begun ==> Unused(x, v)))
    && (x.local && CanReceive(id, server) && v.grant == 0 ==> Bare(x))
    && (!x.local ==> (!x.known ==> Unused(x, v)))
    && (x.closed ==> x.flow.None? && x.stream.None? && x.credit.None?)
    && (x.writer || x.flow.Some? ==> CanSend(id, server) && Ready(id, server, v))
    && (x.flow.Some? ==> FlowInv(lim, x.flow.value, v.bytes, v.ended))
    && (x.stream.Some? || x.reader.Some? || x.credit.Some? ==> CanReceive(id, server) && Ready(id, server, v))
    && (x.credit.Some? ==> x.credit.value <= MAX)
    && (x.reader.Some? ==> ReaderInv(lim, x.reader.value))
    && (x.stream.Some? ==> StreamInv(lim, x.stream.value, x.reader, x.credit, v.grant))
  }

  predicate StreamOk(e: Endpoint, id: StreamId) {
    EndInv(id, e.isServer, e.limits, EndOf(e, id), SentView(e, id))
  }

  /** Frames from the wire were decoded, so their fields fit a varint. */
  predicate Decodable(a: Action) {
    a.Receive? ==> Fits(Header(a.frame))
  }

  /** Actions that open nothing leave every frontier where it was. */
  lemma SameFrontiers(e: Endpoint, e': Endpoint, id: StreamId)
    requires e'.isServer == e.isServer && e'.nextUni == e.nextUni && e'.nextBi == e.nextBi
    requires e'.nextPeerUni == e.nextPeerUni && e'.nextPeerBi == e.nextPeerBi
    ensures Local(e', id) == Local(e, id) && Known(e', id) == Known(e, id)
  {
  }

  // ---- Logs and views ----

  lemma EnqueueView(e: Endpoint, f: Frame, id: StreamId)
    ensures SentView(Enqueue(e, f), id) == Observe(id, e.isServer, SentView(e, id), f)
  {
    FoldAppend(id, e.isServer, Log(e), f);
    assert Log(Enqueue(e, f)) == Log(e) + [f];
  }

  /** Taking a frame from the queue moves it within the log. */
  lemma SentStays(e: Endpoint)
    ensures Log(DoSendQueued(e)) == Log(e)
  {
    if e.outbound != [] { assert e.outbound == [e.outbound[0]] + e.outbound[1..]; }
  }

  lemma SendQueuedView(e: Endpoint, id: StreamId)
    ensures SentView(DoSendQueued(e), id) == SentView(e, id)
    ensures EndOf(DoSendQueued(e), id) == EndOf(e, id)
    ensures DoSendQueued(e).isServer == e.isServer && DoSendQueued(e).limits == e.limits
  {
    hide Known, Local, Fold;
    SentStays(e);
    SameFrontiers(e, DoSendQueued(e), id);
  }

  lemma SendCreditView(e: Endpoint, j: StreamId, id: StreamId)
    ensures SentView(DoSendCredit(e, j), id) ==
            if j !in e.pendingCredit || j != id then SentView(e, id)
            else Credited(id, e.isServer, SentView(e, id), e.pendingCredit[j],
                          Ready(id, e.isServer, Fold(id, e.isServer, e.sent)))
  {
    if j in e.pendingCredit {
      CreditCommutes(id, e.isServer, e.sent, e.outbound, j, e.pendingCredit[j]);
    }
  }

  // ---- Every action keeps the invariant ----

  lemma CloseKeeps(e: Endpoint, id: StreamId)
    requires StreamOk(e, id)
    ensures StreamOk(CloseAll(e), id)
  {
    hide Fold, Arrived, Target;
  }

  lemma SameLogView(e: Endpoint, e': Endpoint, id: StreamId)
    requires e'.isServer == e.isServer && e'.sent == e.sent && e'.outbound == e.outbound
    ensures SentView(e', id) == SentView(e, id)
  {
    hide Fold;
  }

  lemma ErrorKeeps(e: Endpoint, code: nat, reason: string, room: bool, id: StreamId)
    requires StreamOk(e, id)
    ensures StreamOk(ProtocolError(e, code, reason, room), id)
  {
    hide Fold, EndInv, Known, Local, Ascii, SentView;
    var f := ConnectionClose(code, Ascii(reason));
    var told := if room then Enqueue(e, f) else e;
    if room {
      EnqueueView(e, f, id);
      SameFrontiers(e, told, id);
      Untouched(e, told, id);
    }
    CloseKeeps(told, id);
    var closed, r := CloseAll(told), ProtocolError(e, code, reason, room);
    SameFrontiers(closed, r, id);
    SameLogView(closed, r, id);
    Untouched(closed, r, id);
  }

  /** A stream that a step does not touch keeps its invariant. */
  lemma Untouched(e: Endpoint, e': Endpoint, id: StreamId)
    requires StreamOk(e, id)
    requires e'.isServer == e.isServer && e'.limits == e.limits
    requires EndOf(e', id) == EndOf(e, id) && SentView(e', id) == SentView(e, id)
    ensures StreamOk(e', id)
  {
  }

  lemma SetFlow(e: Endpoint, j: StreamId, fl: SendFlow, id: StreamId)
    ensures var e' := e.(sendFlows := e.sendFlows[j := fl]);
            && EndOf(e', id) == (if j == id then EndOf(e, id).(flow := Some(fl)) else EndOf(e, id))
            && SentView(e', id) == SentView(e, id)
  {
    hide Known, Local, Fold;
    SameFrontiers(e, e.(sendFlows := e.sendFlows[j := fl]), id);
  }

  lemma ReserveKeeps(e: Endpoint, j: StreamId, data: seq<Byte>, id: StreamId)
    requires StreamOk(e, id)
    ensures StreamOk(DoReserve(e, j, data), id)
  {
    hide Fold, StreamInv, ReaderInv, DirOf, ByServer;
  }

  lemma CommitKeeps(e: Endpoint, j: StreamId, id: StreamId)
    requires StreamOk(e, id)
    ensures StreamOk(DoCommit(e, j), id)
  {
    hide Fold, StreamInv, ReaderInv, DirOf, ByServer;
    if j in e.sendFlows { EnqueueView(e, Stream(j, e.sendFlows[j].reserved, false), id); }
  }

  lemma ReleaseKeeps(e: Endpoint, j: StreamId, id: StreamId)
    requires StreamOk(e, id)
    ensures StreamOk(DoRelease(e, j), id)
  {
    hide Fold, StreamInv, ReaderInv, DirOf, ByServer;
  }

  lemma QueueFinKeeps(e: Endpoint, j: StreamId, id: StreamId)
    requires StreamOk(e, id)
    ensures StreamOk(DoQueueFin(e, j), id)
  {
    hide Fold, StreamInv, ReaderInv, DirOf, ByServer;
    EnqueueView(e, Stream(j, [], true), id);
  }

  lemma RemoveFlowKeeps(e: Endpoint, j: StreamId, id: StreamId)
    requires StreamOk(e, id)
    ensures StreamOk(DoRemoveFlow(e, j), id)
  {
    hide Fold, StreamInv, ReaderInv, DirOf, ByServer;
  }

  /** A reset is only ever queued for a stream whose flow is gone, so no data can follow it. */
  lemma ResetKeeps(e: Endpoint, j: StreamId, code: nat, id: StreamId)
    requires StreamOk(e, id)
    requires j !in e.sendFlows && CanSend(j, e.isServer) && Ready(j, e.isServer, SentView(e, j))
    requires id == j && !Local(e, j) ==> Known(e, j)
    ensures StreamOk(Enqueue(e, ResetStream(j, code)), id)
  {
    hide Fold, StreamInv, ReaderInv, DirOf, ByServer;
    EnqueueView(e, ResetStream(j, code), id);
  }

  lemma DropWriterKeeps(e: Endpoint, j: StreamId, id: StreamId)
    requires StreamOk(e, id)
    ensures StreamOk(DoDropWriter(e, j), id)
  {
    hide Fold, StreamInv, ReaderInv, DirOf, ByServer;
  }

  // ---- Reading ----

  function Popped(rd: Reader): (r: Reader)
    requires rd.queue != []
  {
    var ev := rd.queue[0];
    rd.(queue := rd.queue[1..], pending := ev.data, finished := ev.fin, finSeen := rd.finSeen || ev.fin)
  }

  lemma PoppedKeeps(lim: Limits, rd: Reader)
    requires ReaderInv(lim, rd) && rd.queue != [] && rd.pending == [] && !rd.finished
    ensures ReaderInv(lim, Popped(rd)) && Arrived(Popped(rd)) == Arrived(rd)
    ensures NoFin(rd.queue) ==> NoFin(Popped(rd).queue) && !Popped(rd).finished
  {
    hide Target;
  }

  /** Swapping in a reader that holds the same bytes under the same limits. */
  lemma ReaderSwap(id: StreamId, server: bool, lim: Limits, x: End, v: View, rd: Reader)
    requires EndInv(id, server, lim, x, v) && x.reader.Some?
    requires ReaderInv(lim, rd) && Arrived(rd) == Arrived(x.reader.value)
    requires x.stream.Some? ==> !rd.finished && NoFin(rd.queue)
                                && rd.granted == x.reader.value.granted && rd.stopSent == x.reader.value.stopSent
    ensures EndInv(id, server, lim, x.(reader := Some(rd)), v)
  {
    hide FlowInv, ReaderInv, Arrived, NoFin, CanSend, Ready;
  }

  lemma SetReader(e: Endpoint, j: StreamId, rd: Reader, id: StreamId)
    ensures var e' := e.(readers := e.readers[j := rd]);
            && EndOf(e', id) == (if j == id then EndOf(e, id).(reader := Some(rd)) else EndOf(e, id))
            && SentView(e', id) == SentView(e, id)
  {
    hide Known, Local, Fold;
    SameFrontiers(e, e.(readers := e.readers[j := rd]), id);
  }

  lemma PopEventKeeps(e: Endpoint, j: StreamId, id: StreamId)
    requires StreamOk(e, id)
    ensures StreamOk(DoPopEvent(e, j), id)
  {
    hide Fold, Known, Local, EndInv;
    if j !in e.readers { return; }
    var rd := e.readers[j];
    if rd.pending != [] || rd.finished || (rd.queue == [] && j in e.streams) { return; }
    var rd' := if rd.queue != [] then Popped(rd) else rd.(finished := true);
    SetReader(e, j, rd', id);
    if j == id { PopReader(id, e.isServer, e.limits, EndOf(e, id), SentView(e, id), rd'); }
  }

  lemma PopReader(id: StreamId, server: bool, lim: Limits, x: End, v: View, rd': Reader)
    requires EndInv(id, server, lim, x, v) && x.reader.Some?
    requires x.reader.value.pending == [] && !x.reader.value.finished
    requires if x.reader.value.queue != [] then rd' == Popped(x.reader.value)
             else x.stream.None? && rd' == x.reader.value.(finished := true)
    ensures EndInv(id, server, lim, x.(reader := Some(rd')), v)
  {
    var rd := x.reader.value;
    if rd.queue != [] { PoppedKeeps(lim, rd); } else { ArrivedSame(rd, rd'); }
    ReaderSwap(id, server, lim, x, v, rd');
  }

  lemma ArrivedSame(rd: Reader, rd': Reader)
    requires rd'.delivered == rd.delivered && rd'.pending == rd.pending && rd'.queue == rd.queue
    ensures Arrived(rd') == Arrived(rd)
  {
  }

  /** The reader after handing over n bytes, before any grant. */
  function Handed(rd: Reader, n: nat): (r: Reader)
    requires n <= |rd.pending|
  {
    rd.(pending := rd.pending[n..], delivered := rd.delivered + rd.pending[..n],
        consumed := SaturatingAdd(rd.consumed, n))
  }

  lemma HandedArrived(rd: Reader, n: nat)
    requires n <= |rd.pending|
    ensures Arrived(Handed(rd, n)) == Arrived(rd)
  {
    assert rd.pending == rd.pending[..n] + rd.pending[n..];
  }

  /** Credit slots: pruning keeps the entries of live streams. */
  lemma QueueCreditEffect(e: Endpoint, j: StreamId, maximum: nat, id: StreamId)
    ensures var e' := QueueCredit(e, j, maximum);
            || e' == CloseAll(e)
            || (&& e' == e.(pendingCredit := e'.pendingCredit)
                && (id != j || id !in e.streams || e.streams[id].stopped ==>
                      Lookup(e'.pendingCredit, id) == Lookup(e.pendingCredit, id)
                      || (id !in e.streams && id !in e'.pendingCredit))
                && (id == j && id in e.streams && !e.streams[id].stopped ==>
                      Lookup(e'.pendingCredit, id)
                      == Some(if id in e.pendingCredit then Max(e.pendingCredit[id], maximum) else maximum)))
  {
  }

  lemma HandedKeeps(e: Endpoint, j: StreamId, rd: Reader, id: StreamId)
    requires StreamOk(e, id) && j in e.readers && ReaderInv(e.limits, rd) && Arrived(rd) == Arrived(e.readers[j])
    requires rd.queue == e.readers[j].queue && rd.finished == e.readers[j].finished
    requires rd.stopSent == e.readers[j].stopSent && rd.granted == e.readers[j].granted
    ensures StreamOk(e.(readers := e.readers[j := rd]), id)
  {
    hide Fold, SentView, FlowInv, ReaderInv, Arrived, NoFin, CanSend, Ready, Known, Local;
    SetReader(e, j, rd, id);
  }

  lemma ConsumeKeeps(e: Endpoint, j: StreamId, n: nat, id: StreamId)
    requires Valid(e.limits) && StreamOk(e, id)
    requires j in e.readers ==> ReaderInv(e.limits, e.readers[j])
    ensures StreamOk(DoConsume(e, j, n), id)
  {
    hide StreamOk, QueueCredit, Queued;
    if j !in e.readers || n == 0 || n > |e.readers[j].pending| { return; }
    var rd, rd1 := e.readers[j], Handed(e.readers[j], n);
    HandedArrived(rd, n);
    var target := Target(e.limits.initialStreamWindow, rd1.consumed);
    if target <= rd1.granted || target - rd1.granted < e.limits.windowUpdateThreshold || rd1.finished || rd1.stopSent {
      assert ReaderInv(e.limits, rd1);
      hide Arrived, ReaderInv, Target;
      HandedKeeps(e, j, rd1, id);
    } else {
      var rd2 := rd1.(granted := target);
      ArrivedSame(rd1, rd2);
      GrantKeeps(e, j, rd2, id);
    }
  }

  function RaisedStream(st: Option<RecvState>, rd: Reader): (r: Option<RecvState>) {
    if st.Some? then Some(st.value.(maxData := rd.granted)) else None
  }

  /** The state in which a grant is queued: reader and receive state already carry the new limit. */
  function Raised(e: Endpoint, j: StreamId, rd: Reader): (r: Endpoint) {
    e.(readers := e.readers[j := rd],
       streams := if j in e.streams then e.streams[j := e.streams[j].(maxData := rd.granted)] else e.streams)
  }

  lemma RaisedProjection(e: Endpoint, j: StreamId, rd: Reader, id: StreamId)
    ensures var e', x := Raised(e, j, rd), EndOf(e, id);
            && EndOf(e', id) == (if j == id then x.(reader := Some(rd), stream := RaisedStream(x.stream, rd))
                                 else x)
            && SentView(e', id) == SentView(e, id) && e'.isServer == e.isServer
  {
    hide Known, Local, Fold;
    SameFrontiers(e, Raised(e, j, rd), id);
  }

  /** A reader and its receive state move to a larger limit, and the grant is pending. */
  lemma GrantedEnd(id: StreamId, server: bool, lim: Limits, x: End, v: View, rd: Reader, credit: Option<nat>)
    requires EndInv(id, server, lim, x, v) && x.reader.Some? && ReaderInv(lim, rd)
    requires Arrived(rd) == Arrived(x.reader.value) && rd.queue == x.reader.value.queue
    requires !rd.stopSent && !x.reader.value.stopSent && rd.finished == x.reader.value.finished
    requires x.reader.value.granted <= rd.granted <= MAX
    requires if x.stream.Some?
             then credit == Some(if x.credit.Some? then Max(x.credit.value, rd.granted) else rd.granted)
             else credit == x.credit || credit.None?
    ensures EndInv(id, server, lim, x.(reader := Some(rd), credit := credit, stream := RaisedStream(x.stream, rd)), v)
  {
    hide FlowInv, ReaderInv, Arrived, NoFin, CanSend, Ready;
    GrantedWithin(lim, rd);
  }

  lemma GrantedWithin(lim: Limits, rd: Reader)
    requires ReaderInv(lim, rd)
    ensures rd.granted <= |Arrived(rd)| + lim.initialStreamWindow
  {
    hide Queued, FinOnlyLast;
  }

  lemma CreditDropped(id: StreamId, server: bool, lim: Limits, x: End, v: View)
    requires EndInv(id, server, lim, x, v) && x.stream.None?
    ensures EndInv(id, server, lim, x.(credit := None), v)
  {
    hide FlowInv, ReaderInv, CanSend, Ready;
  }

  lemma GrantKeeps(e: Endpoint, j: StreamId, rd': Reader, id: StreamId)
    requires StreamOk(e, id) && j in e.readers
    requires ReaderInv(e.limits, rd') && Arrived(rd') == Arrived(e.readers[j])
    requires var rd := e.readers[j];
             && !rd'.stopSent && !rd.stopSent && rd'.finished == rd.finished && rd'.queue == rd.queue
             && rd.granted <= rd'.granted <= MAX
    ensures StreamOk(QueueCredit(Raised(e, j, rd'), j, rd'.granted), id)
  {
    var e1 := Raised(e, j, rd');
    var e' := QueueCredit(e1, j, rd'.granted);
    QueueCreditEffect(e1, j, rd'.granted, id);
    RaisedProjection(e, j, rd', id);
    SameLogView(e1, e', id);
    var x, v := EndOf(e, id), SentView(e, id);
    if j == id && x.stream.Some? { UnstoppedStream(e, id); }
    hide SentView, EndInv, ReaderInv, Known, Local, Arrived, QueueCredit, Raised;
    SameFrontiers(e1, e', id);
    if e' == CloseAll(e1) {
      CloseKeeps(e, id);
      SameLogView(e, CloseAll(e), id);
      SameFrontiers(e, CloseAll(e), id);
      if j == id { GrantedEnd(id, e.isServer, e.limits, EndOf(CloseAll(e), id), v, rd', None); }
    } else if j == id {
      GrantedEnd(id, e.isServer, e.limits, x, v, rd', EndOf(e', id).credit);
    } else if x.stream.None? {
      CreditDropped(id, e.isServer, e.limits, x, v);
    }
  }

  lemma UnstoppedStream(e: Endpoint, id: StreamId)
    requires StreamOk(e, id) && id in e.streams && id in e.readers && !e.readers[id].stopSent
    ensures !e.streams[id].stopped
  {
    hide Fold, FlowInv, ReaderInv, Arrived, NoFin, CanSend, Ready, Known, Local;
  }

  /** The end of a stream once its receive side was stopped. */
  function StoppedEnd(x: End, reader: Option<Reader>): (r: End) {
    if x.stream.None? then x.(reader := reader)
    else x.(reader := reader, stream := Some(x.stream.value.(stopped := true)), credit := None)
  }

  lemma StoppedEndKeeps(id: StreamId, server: bool, lim: Limits, x: End, v: View, reader: Option<Reader>)
    requires EndInv(id, server, lim, x, v) && x.reader.Some?
    requires reader.None? || reader == Some(x.reader.value.(stopSent := true))
    ensures EndInv(id, server, lim, StoppedEnd(x, reader), v)
  {
    hide FlowInv, Arrived, NoFin, CanSend, Ready, Target;
    if reader.Some? { ArrivedSame(x.reader.value, reader.value); }
  }

  lemma StopRecvProjection(e: Endpoint, j: StreamId, id: StreamId)
    ensures EndOf(StopRecv(e, j), id)
            == (if j == id then StoppedEnd(EndOf(e, id), EndOf(e, id).reader) else EndOf(e, id))
    ensures SentView(StopRecv(e, j), id) == SentView(e, id)
    ensures StopRecv(e, j).isServer == e.isServer && StopRecv(e, j).limits == e.limits
  {
    hide Known, Local, SentView, StopRecv, Lookup;
    StopRecvFields(e, j, id);
    SameFrontiers(e, StopRecv(e, j), id);
    SameLogView(e, StopRecv(e, j), id);
  }

  lemma StopRecvFields(e: Endpoint, j: StreamId, id: StreamId)
    ensures var r := StopRecv(e, j);
            && r == e.(streams := r.streams, pendingCredit := r.pendingCredit)
            && (j != id || j !in e.streams ==>
                  Lookup(r.streams, id) == Lookup(e.streams, id)
                      && Lookup(r.pendingCredit, id) == Lookup(e.pendingCredit, id))
            && (j == id && j in e.streams ==>
                  Lookup(r.streams, id) == Some(e.streams[id].(stopped := true)) && Lookup(r.pendingCredit, id) == None)
            && (Lookup(e.streams, id) == if id in e.streams then Some(e.streams[id]) else None)
  {
  }

  lemma StopReadKeeps(e: Endpoint, j: StreamId, id: StreamId)
    requires StreamOk(e, id)
    ensures StreamOk(DoStopRead(e, j), id)
  {
    hide Fold, Known, Local, EndInv, StopRecv;
    if j !in e.readers { return; }
    var rd := e.readers[j].(stopSent := true);
    SetReader(e, j, rd, id);
    StopRecvProjection(e.(readers := e.readers[j := rd]), j, id);
    if j == id { StoppedEndKeeps(id, e.isServer, e.limits, EndOf(e, id), SentView(e, id), Some(rd)); }
  }

  lemma DropReaderKeeps(e: Endpoint, j: StreamId, id: StreamId)
    requires StreamOk(e, id)
    ensures StreamOk(DoDropReader(e, j), id)
  {
    hide Fold, Known, Local, EndInv, StopRecv;
    if j !in e.readers { return; }
    var e1 := e.(readers := e.readers - {j});
    SameFrontiers(e, e1, id);
    StopRecvProjection(e1, j, id);
    if j == id { StoppedEndKeeps(id, e.isServer, e.limits, EndOf(e, id), SentView(e, id), None); }
  }

  lemma QueueStopKeeps(e: Endpoint, j: StreamId, code: nat, id: StreamId)
    requires StreamOk(e, id)
    ensures StreamOk(DoQueueStop(e, j, code), id)
  {
    hide Fold, FlowInv, ReaderInv, StreamInv, DirOf, ByServer;
    EnqueueView(e, StopSending(j, code), id);
  }

  // ---- The writer ----

  lemma SendCreditKeeps(e: Endpoint, j: StreamId, id: StreamId)
    requires StreamOk(e, id)
    ensures StreamOk(DoSendCredit(e, j), id)
  {
    hide Fold, FlowInv, ReaderInv, DirOf, ByServer, Arrived, NoFin;
    SendCreditView(e, j, id);
    if j != id || j !in e.pendingCredit {
      assert EndOf(DoSendCredit(e, j), id) == EndOf(e, id);
    }
  }

  // ---- Opening ----

  /** How one frontier counter moves past `upTo`. */
  predicate Advanced(e: Endpoint, e': Endpoint, local: bool, dir: Dir, upTo: nat) {
    && e'.isServer == e.isServer
    && Frontier(e', local, dir) == upTo + 1 && Frontier(e, local, dir) <= upTo
    && (forall l, d | (l, d) != (local, dir) :: Frontier(e', l, d) == Frontier(e, l, d))
  }

  /** Streams known after the move: those known before, and those passed over. */
  lemma AdvancedKnown(e: Endpoint, e': Endpoint, local: bool, dir: Dir, upTo: nat, id: StreamId)
    requires Advanced(e, e', local, dir, upTo)
    ensures Local(e', id) == Local(e, id)
    ensures Known(e', id) <==> Known(e, id) || (Local(e, id) == local && DirOf(id) == dir && Counter(id) <= upTo)
  {
    hide DirOf, ByServer, Counter;
  }

  lemma OpenFrontier(e: Endpoint, dir: Dir)
    ensures Advanced(e, if dir.Uni? then e.(nextUni := e.nextUni + 1) else e.(nextBi := e.nextBi + 1),
                     true, dir, if dir.Uni? then e.nextUni else e.nextBi)
  {
  }

  lemma PeerFrontier(e: Endpoint, id: StreamId)
    requires !Local(e, id) && !Known(e, id)
    ensures Advanced(e, PassPeerFrontier(e, id), false, DirOf(id), Counter(id))
  {
    hide DirOf, ByServer, Counter, Steady, Advanced;
    PeerAdvances(e, DirOf(id), Counter(id));
  }

  lemma PeerAdvances(e: Endpoint, dir: Dir, counter: nat)
    requires Frontier(e, false, dir) <= counter
    ensures Advanced(e, if dir.Uni? then e.(nextPeerUni := counter + 1) else e.(nextPeerBi := counter + 1),
                     false, dir, counter)
  {
  }

  /** Advancing a frontier by itself keeps every stream: a skipped stream stays unused. */
  lemma AdvanceKeeps(e: Endpoint, e': Endpoint, local: bool, dir: Dir, upTo: nat, id: StreamId)
    requires StreamOk(e, id) && Advanced(e, e', local, dir, upTo)
    requires e' == e.(nextUni := e'.nextUni, nextBi := e'.nextBi,
                      nextPeerUni := e'.nextPeerUni, nextPeerBi := e'.nextPeerBi)
    ensures StreamOk(e', id) && SentView(e', id) == SentView(e, id)
    ensures EndOf(e', id) == EndOf(e, id).(known := Known(e', id))
  {
    hide FlowInv, ReaderInv, StreamInv, Fold, CanSend, Ready, Frontier, Known, Local, DirOf, ByServer, Counter;
    AdvancedKnown(e, e', local, dir, upTo, id);
  }

  lemma RegisterSendProjection(e: Endpoint, j: StreamId, id: StreamId)
    ensures var e' := RegisterSend(e, j);
            && EndOf(e', id) == (if j == id then EndOf(e, id).(flow := Some(SendFlow(0, 0, [], false)), writer := true)
                                 else EndOf(e, id))
            && SentView(e', id) == SentView(e, id) && e'.limits == e.limits && e'.isServer == e.isServer
  {
    hide Known, Local, Fold;
    SameFrontiers(e, RegisterSend(e, j), id);
  }

  lemma RegisterRecvProjection(e: Endpoint, j: StreamId, id: StreamId)
    ensures var e' := RegisterRecv(e, j);
            && EndOf(e', id) == (if j == id then
                                   EndOf(e, id).(stream := Some(RecvState(false, 0, e.limits.initialStreamWindow)),
                                                 reader := Some(NewReader(e)))
                                 else EndOf(e, id))
            && SentView(e', id) == SentView(e, id) && e'.limits == e.limits && e'.isServer == e.isServer
  {
    hide Known, Local, Fold;
    SameFrontiers(e, RegisterRecv(e, j), id);
  }

  lemma EnqueueProjection(e: Endpoint, f: Frame, id: StreamId)
    ensures EndOf(Enqueue(e, f), id) == EndOf(e, id)
    ensures Enqueue(e, f).limits == e.limits && Enqueue(e, f).isServer == e.isServer
  {
    hide Known, Local;
    SameFrontiers(e, Enqueue(e, f), id);
  }

  lemma NewReaderInv(e: Endpoint)
    requires Valid(e.limits)
    ensures ReaderInv(e.limits, NewReader(e)) && Arrived(NewReader(e)) == []
  {
  }

  /** What an endpoint holds of a stream it has just opened or accepted, and what its log says. */
  function NewEnd(x: End, lim: Limits, rd: Reader, sends: bool, receives: bool): (r: End) {
    x.(known := true,
       flow := if sends then Some(SendFlow(0, 0, [], false)) else x.flow, writer := sends || x.writer,
       stream := if receives then Some(RecvState(false, 0, lim.initialStreamWindow)) else x.stream,
       reader := if receives then Some(rd) else x.reader)
  }

  lemma NewEndInv(id: StreamId, server: bool, lim: Limits, x: End, v: View, w: View, rd: Reader, sends: bool,
      receives: bool)
    requires Valid(lim) && Unused(x, v) && !x.closed && x.local == (ByServer(id) == server)
    requires ReaderInv(lim, rd) && Arrived(rd) == []
    requires rd == Reader([], [], 0, lim.initialStreamWindow, false, false, [], false)
    requires w == BLANK.(passed := w.passed, begun := x.local, active := w.active,
                         grant := w.grant)
    requires w.grant == 0 || (receives && w.grant == lim.initialStreamWindow)
    requires sends ==> CanSend(id, server)
    requires receives ==> CanReceive(id, server)
    requires x.local && CanReceive(id, server) ==> w.grant > 0
    ensures EndInv(id, server, lim, NewEnd(x, lim, rd, sends, receives), w)
  {
    hide Arrived, ReaderInv, CanSend, ByServer;
  }

  lemma LocalUniDirection(e: Endpoint, id: StreamId)
    requires Local(e, id) && DirOf(id).Uni?
    ensures !CanReceive(id, e.isServer)
  {
  }

  lemma WindowPositive(lim: Limits)
    requires Valid(lim)
    ensures lim.initialStreamWindow > 0 && lim.maxOpenStreams > 0
  {
  }

  lemma PassedOver(id: StreamId, server: bool, lim: Limits, x: End, v: View)
    requires EndInv(id, server, lim, x, v) && x.known
    ensures EndInv(id, server, lim, x, v.(passed := true))
  {
    hide FlowInv, ReaderInv, StreamInv, CanSend;
  }

  lemma OpenUniKeeps(e: Endpoint, queued: bool, id: StreamId)
    requires Valid(e.limits) && StreamOk(e, id)
    ensures StreamOk(DoOpenUni(e, queued), id)
  {
    hide EndInv, EndOf, SentView, RegisterSend, Enqueue, CanSend, Known, Local, DirOf, ByServer, Counter, Advanced;
    hide Valid;
    if e.closed { return; }
    var e1 := e.(nextUni := e.nextUni + 1);
    OpenFrontier(e, Uni);
    AdvanceKeeps(e, e1, true, Uni, e.nextUni, id);
    var got := NewId(e.nextUni, e.isServer, Uni);
    if got.None? || !SendSlotFree(e, got.value) || !queued { return; }
    var j := got.value;
    OpenedFacts(e, e1, Uni, j, id);
    var e2 := RegisterSend(e1, j);
    RegisterSendProjection(e1, j, id);
    EnqueueProjection(e2, OpenUni(j), id);
    EnqueueView(e2, OpenUni(j), id);
    if id == j {
      NewReaderInv(e);
      LocalUniDirection(e, id);
      NewEndInv(id, e.isServer, e.limits, EndOf(e, id), SentView(e, id),
                ObserveOpen(id, e.isServer, SentView(e, id), j, Uni), NewReader(e), true, false);
    } else {
      if EndOf(e1, id).known { PassedOver(id, e.isServer, e.limits, EndOf(e1, id), SentView(e, id)); }
    }
  }

  /** The identifier just allocated is unused, and only streams now known can be passed over by its open. */
  lemma OpenedFacts(e: Endpoint, e1: Endpoint, dir: Dir, j: StreamId, id: StreamId)
    requires StreamOk(e, id) && Advanced(e, e1, true, dir, Frontier(e, true, dir))
    requires NewId(Frontier(e, true, dir), e.isServer, dir) == Some(j)
    ensures EndOf(e, id).closed == e.closed && EndOf(e, id).local == Local(e, id)
    ensures j <= MAX && DirOf(j) == dir && ByServer(j) == e.isServer && Local(e, j)
    ensures CanSend(j, e.isServer) && (dir.Bi? ==> CanReceive(j, e.isServer))
    ensures id == j ==> && Unused(EndOf(e, id), SentView(e, id)) && Known(e1, id) && EndOf(e, id).local
                        && !SentView(e, id).passed
    ensures var v, w := SentView(e, id), ObserveOpen(id, e.isServer, SentView(e, id), j, dir);
            if id == j then w == BLANK.(passed := true, begun := true, active := true)
            else w == v || (w == v.(passed := true) && Known(e1, id))
  {
    hide FlowInv, ReaderInv, StreamInv, Fold;
    IdBijection(Frontier(e, true, dir), e.isServer, dir, j);
    AdvancedKnown(e, e1, true, dir, Frontier(e, true, dir), id);
    FoldShaped(id, e.isServer, Log(e));
  }

  /** The open frame is queued and nothing else has happened. */
  lemma HalfOpenKeeps(e: Endpoint, v: View, x: End, j: StreamId, id: StreamId)
    requires StreamOk(e, id) && SentView(e, id) == v && EndOf(e, id) == x.(known := Known(e, id))
    requires id == j ==> Unused(x, v) && Known(e, id) && x.local
    requires var w := ObserveOpen(id, e.isServer, v, j, Bi);
             if id == j then w == BLANK.(passed := true, begun := true, active := true)
             else w == v || (w == v.(passed := true) && Known(e, id))
    ensures StreamOk(Enqueue(e, OpenBi(j)), id)
  {
    hide SentView, EndOf, Known, Local, Enqueue, ObserveOpen, FlowInv, ReaderInv, StreamInv, CanSend;
    EnqueueProjection(e, OpenBi(j), id);
    EnqueueView(e, OpenBi(j), id);
    if id != j && x.(known := Known(e, id)).known { PassedOver(id, e.isServer, e.limits, EndOf(e, id), v); }
  }

  lemma OpenBiKeeps(e: Endpoint, queued: bool, credited: bool, id: StreamId)
    requires Valid(e.limits) && StreamOk(e, id)
    ensures StreamOk(DoOpenBi(e, queued, credited), id)
  {
    hide EndInv, EndOf, SentView, RegisterSend, RegisterRecv, Enqueue, CanSend;
    hide Known, Local, DirOf, ByServer, Counter, Advanced, Valid;
    if e.closed { return; }
    var e1 := e.(nextBi := e.nextBi + 1);
    OpenFrontier(e, Bi);
    AdvanceKeeps(e, e1, true, Bi, e.nextBi, id);
    var got := NewId(e.nextBi, e.isServer, Bi);
    if got.None? || !SendSlotFree(e, got.value) || !queued { return; }
    var j := got.value;
    OpenedFacts(e, e1, Bi, j, id);
    if !credited {
      HalfOpenKeeps(e1, SentView(e, id), EndOf(e, id), j, id);
      return;
    }
    var e2 := RegisterSend(e1, j);
    var e3 := RegisterRecv(e2, j);
    var e4 := Enqueue(e3, OpenBi(j));
    RegisterSendProjection(e1, j, id);
    RegisterRecvProjection(e2, j, id);
    EnqueueProjection(e3, OpenBi(j), id);
    EnqueueView(e3, OpenBi(j), id);
    EnqueueProjection(e4, InitialCredit(e, j), id);
    EnqueueView(e4, InitialCredit(e, j), id);
    if id == j {
      NewReaderInv(e);
      WindowPositive(e.limits);
      NewEndInv(id, e.isServer, e.limits, EndOf(e, id), SentView(e, id),
                Observe(id, e.isServer, ObserveOpen(id, e.isServer, SentView(e, id), j, Bi), InitialCredit(e, j)),
                NewReader(e), true, true);
    } else {
      if EndOf(e1, id).known { PassedOver(id, e.isServer, e.limits, EndOf(e1, id), SentView(e, id)); }
    }
  }

  // ---- Inbound frames ----

  lemma AnyErrorKeeps(e: Endpoint, room: bool, id: StreamId)
    requires StreamOk(e, id)
    ensures forall code, reason :: StreamOk(ProtocolError(e, code, reason, room), id)
  {
    hide StreamOk, ProtocolError;
    forall code, reason { ErrorKeeps(e, code, reason, room, id); }
  }

  lemma AcceptQueuesProjection(e: Endpoint, uni: seq<StreamId>, bi: seq<StreamId>, id: StreamId)
    ensures var e' := e.(acceptUni := uni, acceptBi := bi);
            EndOf(e', id) == EndOf(e, id) && SentView(e', id) == SentView(e, id)
  {
    hide Fold, Known, Local;
    SameFrontiers(e, e.(acceptUni := uni, acceptBi := bi), id);
  }

  lemma HandOverProjection(e: Endpoint, j: StreamId, id: StreamId)
    requires id == j ==> EndOf(e, id).known
    ensures var e' := HandOver(e, j);
            && EndOf(e', id) == (if id == j then NewEnd(EndOf(e, id), e.limits, NewReader(e), DirOf(j).Bi?, true)
                                 else EndOf(e, id))
            && SentView(e', id) == SentView(e, id) && e'.limits == e.limits && e'.isServer == e.isServer
  {
    hide EndOf, SentView, RegisterRecv, RegisterSend, DirOf;
    var e1 := RegisterRecv(e, j);
    RegisterRecvProjection(e, j, id);
    RegisterSendProjection(e1, j, id);
    AcceptQueuesKept(e, j);
    AcceptQueuesProjection(e1, e.acceptUni + [j], e1.acceptBi, id);
    var e2 := RegisterSend(e1, j);
    AcceptQueuesProjection(e2, e2.acceptUni, e.acceptBi + [j], id);
  }

  lemma AcceptQueuesKept(e: Endpoint, j: StreamId)
    ensures RegisterRecv(e, j).(acceptUni := e.acceptUni + [j])
            == RegisterRecv(e, j).(acceptUni := e.acceptUni + [j], acceptBi := RegisterRecv(e, j).acceptBi)
    ensures var e2 := RegisterSend(RegisterRecv(e, j), j);
            e2.(acceptBi := e.acceptBi + [j]) == e2.(acceptUni := e2.acceptUni, acceptBi := e.acceptBi + [j])
  {
  }

  /** The outcome of a well-placed open whose initial credit the queue refused. */
  lemma UntoldKeeps(e: Endpoint, j: StreamId, id: StreamId)
    requires Valid(e.limits) && StreamOk(e, id) && !Local(e, j) && Known(e, j) && !e.closed
    requires id == j ==> Unused(EndOf(e, j), SentView(e, j))
    ensures StreamOk(HandOver(e, j), id)
  {
    hide EndInv, EndOf, SentView, HandOver, CanSend, Known, Local, DirOf, ByServer, Valid, Observe;
    CreditViewFacts(e, j, id);
    HandOverProjection(e, j, id);
    if id == j {
      NewReaderInv(e);
      NewEndInv(id, e.isServer, e.limits, EndOf(e, id), SentView(e, id), SentView(e, id), NewReader(e), DirOf(j).Bi?,
          true);
    }
  }

  /** The two outcomes of a well-placed open, before the session is possibly closed. */
  lemma AdmitKeeps(e: Endpoint, j: StreamId, id: StreamId)
    requires Valid(e.limits) && StreamOk(e, id) && !Local(e, j) && Known(e, j) && !e.closed
    requires id == j ==> Unused(EndOf(e, j), SentView(e, j))
    ensures StreamOk(Enqueue(e, InitialCredit(e, j)), id)
    ensures StreamOk(HandOver(Enqueue(e, InitialCredit(e, j)), j), id)
  {
    hide EndInv, EndOf, SentView, HandOver, Enqueue, CanSend, Known, Local, DirOf, ByServer, Valid, Observe;
    var e1 := Enqueue(e, InitialCredit(e, j));
    EnqueueProjection(e, InitialCredit(e, j), id);
    EnqueueView(e, InitialCredit(e, j), id);
    CreditViewFacts(e, j, id);
    HandOverProjection(e1, j, id);
    if id == j {
      NewReaderInv(e);
      var x, v := EndOf(e, id), SentView(e, id);
      var w := Observe(id, e.isServer, v, InitialCredit(e, j));
      UnusedCredited(id, e.isServer, e.limits, x, v, w);
      NewEndInv(id, e.isServer, e.limits, x, v, w, NewReader(e), DirOf(j).Bi?, true);
    }
  }

  /** The initial credit for a peer's stream is in place and touches no other stream. */
  lemma CreditViewFacts(e: Endpoint, j: StreamId, id: StreamId)
    requires !Local(e, j)
    ensures EndOf(e, id).closed == e.closed && EndOf(e, id).local == (ByServer(id) == e.isServer)
    ensures EndOf(e, id).known == Known(e, id) && ByServer(j) != e.isServer
    ensures CanReceive(j, e.isServer) && (DirOf(j).Bi? ==> CanSend(j, e.isServer))
    ensures var v, w := SentView(e, id), Observe(id, e.isServer, SentView(e, id), InitialCredit(e, j));
            if id == j then w == v.(active := true, grant := Max(v.grant, e.limits.initialStreamWindow)) else w == v
  {
    hide Fold, Known, DirOf;
  }

  lemma UnusedCredited(id: StreamId, server: bool, lim: Limits, x: End, v: View, w: View)
    requires Unused(x, v) && x.known && !x.local && ByServer(id) != server
    requires w == v.(active := true, grant := w.grant)
    ensures EndInv(id, server, lim, x, w)
  {
  }

  lemma AcceptKeeps(e: Endpoint, id: StreamId)
    requires StreamOk(e, id)
    ensures StreamOk(DoAcceptUni(e), id) && StreamOk(DoAcceptBi(e), id)
  {
    hide EndInv, EndOf, SentView;
    if e.acceptUni != [] { AcceptQueuesProjection(e, e.acceptUni[1..], e.acceptBi, id); }
    if e.acceptBi != [] { AcceptQueuesProjection(e, e.acceptUni, e.acceptBi[1..], id); }
  }

  lemma ReceiveOpenKeeps(e: Endpoint, j: StreamId, dir: Dir, queued: bool, room: bool, id: StreamId)
    requires Valid(e.limits) && StreamOk(e, id) && !e.closed
    ensures StreamOk(ReceiveOpen(e, j, dir, queued, room), id)
  {
    hide StreamOk, Admit, ProtocolError, PassPeerFrontier, Valid, Known, Local, DirOf;
    AnyErrorKeeps(e, room, id);
    if OpenViolation(e, j, dir).Some? { return; }
    PassedFacts(e, j, id);
    PlacedOpenKeeps(PassPeerFrontier(e, j), j, queued, room, id);
  }

  lemma PlacedOpenKeeps(e: Endpoint, j: StreamId, queued: bool, room: bool, id: StreamId)
    requires Valid(e.limits) && StreamOk(e, id) && !e.closed && !Local(e, j) && Known(e, j)
    requires id == j ==> Unused(EndOf(e, j), SentView(e, j))
    ensures StreamOk(Admit(e, j, queued, room), id)
  {
    hide StreamOk, HandOver, HandOverViolation, Enqueue, ProtocolError, Valid, Known, Local, EndOf, SentView, Unused;
    AnyErrorKeeps(e, room, id);
    UntoldKeeps(e, j, id);
    AdmitKeeps(e, j, id);
    AnyErrorKeeps(Enqueue(e, InitialCredit(e, j)), room, id);
  }

  lemma PassedFacts(e: Endpoint, j: StreamId, id: StreamId)
    requires StreamOk(e, id) && !Local(e, j) && !Known(e, j)
    ensures var e1 := PassPeerFrontier(e, j);
            && StreamOk(e1, id) && !Local(e1, j) && Known(e1, j) && e1.closed == e.closed && e1.limits == e.limits
            && e1.isServer == e.isServer && SentView(e1, id) == SentView(e, id)
            && EndOf(e1, id) == EndOf(e, id).(known := Known(e1, id))
            && (Known(e1, id) <==>
                  Known(e, id) || (!Local(e, id) && DirOf(id) == DirOf(j) && Counter(id) <= Counter(j)))
            && (id == j ==> Unused(EndOf(e1, j), SentView(e1, j)))
  {
    hide DirOf, Counter, Local, Advanced, EndInv, SentView, Known, Unused;
    var e1 := PassPeerFrontier(e, j);
    PeerFrontier(e, j);
    AdvanceKeeps(e, e1, false, DirOf(j), Counter(j), id);
    AdvancedKnown(e, e1, false, DirOf(j), Counter(j), id);
    AdvancedKnown(e, e1, false, DirOf(j), Counter(j), j);
    if id == j { UnknownUnused(e, j, e1); }
  }

  lemma UnknownUnused(e: Endpoint, j: StreamId, e1: Endpoint)
    requires StreamOk(e, j) && !Local(e, j) && !Known(e, j)
    requires EndOf(e1, j) == EndOf(e, j).(known := Known(e1, j)) && SentView(e1, j) == SentView(e, j)
    ensures Unused(EndOf(e1, j), SentView(e1, j))
  {
    hide Fold, Known, Local, FlowInv, ReaderInv, StreamInv;
  }

  /** One stream frame, accounted for and either queued for the reader or discarded. */
  function Arrival(x: End, data: seq<Byte>, fin: bool): (r: End)
    requires x.stream.Some?
  {
    var st := x.stream.value;
    x.(stream := if fin then None else Some(st.(received := st.received + |data|)),
       reader := if st.stopped || x.reader.None? then x.reader
                 else Some(x.reader.value.(queue := x.reader.value.queue + [RecvEvent(data, fin)])))
  }

  lemma ArrivalKeeps(id: StreamId, server: bool, lim: Limits, x: End, v: View, data: seq<Byte>, fin: bool)
    requires EndInv(id, server, lim, x, v) && x.stream.Some?
    requires x.stream.value.received + |data| <= x.stream.value.maxData
    ensures EndInv(id, server, lim, Arrival(x, data, fin), v)
  {
    hide FlowInv, CanSend, Ready, Target, Queued;
    if x.reader.Some? { QueuedAppend(x.reader.value.queue, RecvEvent(data, fin)); }
  }

  lemma AccountedProjection(e: Endpoint, j: StreamId, data: seq<Byte>, fin: bool, id: StreamId)
    requires j in e.streams
    ensures var e' := Accounted(e, j, data, fin);
            && EndOf(e', id) == (if id == j then Arrival(EndOf(e, id), data, fin) else EndOf(e, id))
            && SentView(e', id) == SentView(e, id)
            && e'.limits == e.limits && e'.isServer == e.isServer
  {
    hide Known, Local, Fold;
    SameFrontiers(e, Accounted(e, j, data, fin), id);
  }

  lemma ReceiveStreamKeeps(e: Endpoint, j: StreamId, data: seq<Byte>, fin: bool, room: bool, id: StreamId)
    requires StreamOk(e, id)
    ensures StreamOk(ReceiveStream(e, j, data, fin, room), id)
  {
    hide StreamOk, ProtocolError, Accounted;
    AnyErrorKeeps(e, room, id);
    if StreamViolation(e, j, data).None? { AccountedKeeps(e, j, data, fin, id); }
  }

  lemma AccountedKeeps(e: Endpoint, j: StreamId, data: seq<Byte>, fin: bool, id: StreamId)
    requires StreamOk(e, id) && j in e.streams && e.streams[j].received + |data| <= e.streams[j].maxData
    ensures StreamOk(Accounted(e, j, data, fin), id)
  {
    hide EndInv, Accounted, Fold, Known, Local, Arrival;
    AccountedProjection(e, j, data, fin, id);
    if id == j { ArrivalKeeps(id, e.isServer, e.limits, EndOf(e, id), SentView(e, id), data, fin); }
  }

  lemma RemoveRecvKeeps(e: Endpoint, j: StreamId, id: StreamId)
    requires StreamOk(e, id)
    ensures StreamOk(RemoveRecv(e, j), id)
  {
    hide Fold, FlowInv, ReaderInv, CanSend, Ready, Known, Local, Arrived;
    SameFrontiers(e, RemoveRecv(e, j), id);
  }

  lemma StopSendingKeeps(e: Endpoint, j: StreamId, code: nat, id: StreamId)
    requires StreamOk(e, id) && StreamOk(e, j) && j in e.sendFlows
    ensures StreamOk(Enqueue(DoRemoveFlow(e, j), ResetStream(j, code)), id)
  {
    hide Fold, FlowInv, ReaderInv, StreamInv, CanSend, Known, Local, Observe;
    RemoveFlowKeeps(e, j, id);
    RemoveFlowKeeps(e, j, j);
    SameFrontiers(e, DoRemoveFlow(e, j), j);
    assert SentView(DoRemoveFlow(e, j), j) == SentView(e, j);
    ResetKeeps(DoRemoveFlow(e, j), j, code, id);
  }

  lemma AnswerStopKeeps(e: Endpoint, j: StreamId, code: nat, queued: bool, id: StreamId)
    requires StreamOk(e, id) && StreamOk(e, j) && j in e.sendFlows
    ensures StreamOk(AnswerStop(e, j, code, queued), id)
  {
    hide StreamOk, Enqueue, DoRemoveFlow, CloseAll;
    if queued {
      StopSendingKeeps(e, j, code, id);
    } else {
      RemoveFlowKeeps(e, j, id);
      CloseKeeps(DoRemoveFlow(e, j), id);
    }
  }

  lemma CreditReceivedKeeps(e: Endpoint, j: StreamId, max: nat, id: StreamId)
    requires StreamOk(e, id)
    ensures StreamOk(HandleFrame(e, MaxStreamData(j, max), true, true), id)
  {
    hide Fold, ReaderInv, StreamInv, CanSend, Ready, Known, Local;
    SameFrontiers(e, HandleFrame(e, MaxStreamData(j, max), true, true), id);
  }

  /** Every inbound frame, from any peer, keeps the invariant of every stream. */
  lemma ReceiveKeeps(e: Endpoint, frame: Frame, queued: bool, room: bool, id: StreamId)
    requires Valid(e.limits) && !e.closed && forall j :: StreamOk(e, j)
    ensures StreamOk(HandleFrame(e, frame, queued, room), id)
  {
    hide StreamOk, ReceiveOpen, ReceiveStream, ProtocolError, AnswerStop, RemoveRecv, CloseAll, IsRetiredDirection;
    hide Valid;
    AnyErrorKeeps(e, room, id);
    match frame
    case OpenUni(j) => ReceiveOpenKeeps(e, j, Uni, queued, room, id);
    case OpenBi(j) => ReceiveOpenKeeps(e, j, Bi, queued, room, id);
    case Stream(j, data, fin) => ReceiveStreamKeeps(e, j, data, fin, room, id);
    case ResetStream(j, _) => RemoveRecvKeeps(e, j, id);
    case StopSending(j, code) => if j in e.sendFlows { AnswerStopKeeps(e, j, code, queued, id); }
    case MaxStreamData(j, max) => CreditReceivedKeeps(e, j, max, id);
    case ConnectionClose(_, _) => CloseKeeps(e, id);
  }

  /** Every action keeps the invariant of every stream. */
  lemma StepKeeps(e: Endpoint, a: Action, id: StreamId)
    requires Valid(e.limits) && forall j :: StreamOk(e, j)
    ensures StreamOk(Step(e, a), id)
  {
    hide *;
    StepForm(e, a);
    match a
    case OpenUniStream(queued) => OpenUniKeeps(e, queued, id);
    case OpenBiStream(queued, credited) => OpenBiKeeps(e, queued, credited, id);
    case Reserve(j, data) => ReserveKeeps(e, j, data, id);
    case Commit(j) => CommitKeeps(e, j, id);
    case Release(j) => ReleaseKeeps(e, j, id);
    case QueueFin(j) => QueueFinKeeps(e, j, id);
    case RemoveFlow(j) => RemoveFlowKeeps(e, j, id);
    case QueueReset(j, code) => QueueResetKeeps(e, j, code, id);
    case DropWriter(j) => DropWriterKeeps(e, j, id);
    case AcceptUni => AcceptKeeps(e, id);
    case AcceptBi => AcceptKeeps(e, id);
    case PopEvent(j) => PopEventKeeps(e, j, id);
    case Consume(j, n) => ReaderOf(e, j); ConsumeKeeps(e, j, n, id);
    case StopRead(j) => StopReadKeeps(e, j, id);
    case QueueStop(j, code) => QueueStopKeeps(e, j, code, id);
    case DropReader(j) => DropReaderKeeps(e, j, id);
    case SendQueued => SendQueuedKeeps(e, id);
    case SendCredit(j) => SendCreditKeeps(e, j, id);
    case Receive(frame, queued, room) => if !e.closed { ReceiveKeeps(e, frame, queued, room, id); }
    case Reject(problem, room) => ErrorKeeps(e, ProblemCode(problem), ProblemReason(problem), room, id);
    case CloseSession => CloseKeeps(e, id);
  }

  lemma ReaderOf(e: Endpoint, j: StreamId)
    requires StreamOk(e, j)
    ensures j in e.readers ==> ReaderInv(e.limits, e.readers[j])
  {
    hide Fold, FlowInv, StreamInv, ReaderInv, Known, Local;
  }

  lemma QueueResetKeeps(e: Endpoint, j: StreamId, code: nat, id: StreamId)
    requires StreamOk(e, id) && StreamOk(e, j)
    ensures StreamOk(DoQueueReset(e, j, code), id)
  {
    hide Fold, FlowInv, StreamInv, ReaderInv, Known, Local, CanSend, Ready;
    if e.closed || j in e.sendFlows || j !in e.writers || code > MAX { return; }
    ResetKeeps(e, j, code, id);
  }

  lemma SendQueuedKeeps(e: Endpoint, id: StreamId)
    requires StreamOk(e, id)
    ensures StreamOk(DoSendQueued(e), id)
  {
    hide EndOf, SentView, EndInv, DoSendQueued;
    SendQueuedView(e, id);
  }
}
