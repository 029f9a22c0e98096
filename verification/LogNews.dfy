/** Which actions put an open or a closing frame into the log of an endpoint. */
module LogNews {
  import opened VarInts
  import opened Frames
  import opened Endpoints
  import opened Views
  import opened Registry

  /** Opens and closing frames, which few actions queue. */
  predicate Rare(g: Frame) {
    g.OpenUni? || g.OpenBi? || g.ConnectionClose?
  }

  /** The frame is in the log only if it was there before. */
  predicate NotNews(e: Endpoint, r: Endpoint, g: Frame) {
    g in Log(r) ==> g in Log(e)
  }

  lemma SameLogNoNews(e: Endpoint, r: Endpoint, g: Frame)
    requires r.sent == e.sent && r.outbound == e.outbound
    ensures NotNews(e, r, g)
  {
  }

  lemma QueuedNoNews(e: Endpoint, r: Endpoint, f: Frame, g: Frame)
    requires r.sent == e.sent && r.outbound == e.outbound + [f] && f != g
    ensures NotNews(e, r, g)
  {
  }

  // ---- The sending side ----

  lemma SpendingLog(e: Endpoint, j: StreamId, data: seq<Byte>)
    ensures var r, q := DoReserve(e, j, data), DoRelease(e, j);
            r.sent == e.sent == q.sent && r.outbound == e.outbound == q.outbound
  {
    hide Min;
  }

  lemma RetiringLog(e: Endpoint, j: StreamId)
    ensures var r, q := DoRemoveFlow(e, j), DoDropWriter(e, j);
            r.sent == e.sent == q.sent && r.outbound == e.outbound == q.outbound
  {
  }

  /** The log is the same, or gains one frame that is neither an open nor a closing frame. */
  ghost predicate Common(e: Endpoint, r: Endpoint) {
    && r.sent == e.sent
    && (r.outbound == e.outbound || (exists f: Frame :: !Rare(f) && r.outbound == e.outbound + [f]))
  }

  lemma CommonNoNews(e: Endpoint, r: Endpoint, g: Frame)
    requires Common(e, r) && Rare(g)
    ensures NotNews(e, r, g)
  {
  }

  lemma PublishedCommon(e: Endpoint, j: StreamId)
    ensures Common(e, DoCommit(e, j)) && Common(e, DoQueueFin(e, j))
  {
    if j in e.sendFlows {
      assert !Rare(Stream(j, e.sendFlows[j].reserved, false)) && !Rare(Stream(j, [], true));
    }
  }

  lemma ResetCommon(e: Endpoint, j: StreamId, code: nat)
    ensures Common(e, DoQueueReset(e, j, code)) && Common(e, DoQueueStop(e, j, code))
  {
    assert !Rare(ResetStream(j, code)) && !Rare(StopSending(j, code));
  }

  lemma PublishNoNews(e: Endpoint, j: StreamId, code: nat, g: Frame)
    requires Rare(g)
    ensures NotNews(e, DoCommit(e, j), g) && NotNews(e, DoQueueFin(e, j), g) && NotNews(e, DoQueueReset(e, j, code), g)
    ensures NotNews(e, DoQueueStop(e, j, code), g)
  {
    hide *;
    PublishedCommon(e, j);
    ResetCommon(e, j, code);
    CommonNoNews(e, DoCommit(e, j), g);
    CommonNoNews(e, DoQueueFin(e, j), g);
    CommonNoNews(e, DoQueueReset(e, j, code), g);
    CommonNoNews(e, DoQueueStop(e, j, code), g);
  }

  /** An own open puts its frame into the log if the queue takes it. */
  lemma OpenUniNews(e: Endpoint, queued: bool, g: Frame)
    requires Rare(g) && !g.OpenUni?
    ensures NotNews(e, DoOpenUni(e, queued), g)
  {
    hide NotNews, NewId, SendSlotFree, RegisterSend;
    SameLogNoNews(e, e, g);
    var e1 := e.(nextUni := e.nextUni + 1);
    SameLogNoNews(e, e1, g);
    var got := NewId(e.nextUni, e.isServer, Uni);
    if got.Some? {
      RegisterLog(e1, got.value);
      QueuedNoNews(e, Enqueue(RegisterSend(e1, got.value), OpenUni(got.value)), OpenUni(got.value), g);
    }
  }

  lemma RegisterLog(e: Endpoint, id: StreamId)
    ensures var r, q := RegisterSend(e, id), RegisterRecv(e, id);
            r.sent == e.sent == q.sent && r.outbound == e.outbound == q.outbound
  {
  }

  lemma OpenBiLog(e: Endpoint, queued: bool, credited: bool)
    ensures var r := DoOpenBi(e, queued, credited);
            && r.sent == e.sent
            && (|| r.outbound == e.outbound
                || (&& queued && NextBi(e).Some?
                    && var j := NextBi(e).value;
                       || r.outbound == e.outbound + [OpenBi(j)]
                       || r.outbound == e.outbound + [OpenBi(j)] + [InitialCredit(e, j)]))
  {
    hide NewId, SendSlotFree, NewReader, SameWire;
  }

  lemma OpenBiNews(e: Endpoint, queued: bool, credited: bool, g: Frame)
    requires Rare(g)
    ensures NotNews(e, DoOpenBi(e, queued, credited), g) || (queued && NextBi(e).Some? && g == OpenBi(NextBi(e).value))
  {
    hide DoOpenBi, NextBi;
    OpenBiLog(e, queued, credited);
  }

  // ---- The receiving side ----

  lemma ReadingLog(e: Endpoint, j: StreamId)
    ensures var r, q := DoPopEvent(e, j), DoDropReader(e, j);
            r.sent == e.sent == q.sent && r.outbound == e.outbound == q.outbound
    ensures var r := DoStopRead(e, j); r.sent == e.sent && r.outbound == e.outbound
  {
    hide DoPopEvent, DoDropReader, DoStopRead;
    PopLog(e, j);
    StopLog(e, j);
  }

  lemma PopLog(e: Endpoint, j: StreamId)
    ensures var r := DoPopEvent(e, j); r.sent == e.sent && r.outbound == e.outbound
  {
    hide SameWire;
    if j in e.readers {
      var rd := e.readers[j];
      if rd.pending != [] || rd.finished {
        assert DoPopEvent(e, j) == e;
      } else if rd.queue == [] && j in e.streams {
        assert DoPopEvent(e, j) == e;
      }
    }
  }

  lemma StopLog(e: Endpoint, j: StreamId)
    ensures var r, q := DoDropReader(e, j), DoStopRead(e, j);
            r.sent == e.sent == q.sent && r.outbound == e.outbound == q.outbound
  {
    hide SameWire;
  }

  lemma AcceptLog(e: Endpoint)
    ensures var r, q := DoAcceptUni(e), DoAcceptBi(e);
            r.sent == e.sent == q.sent && r.outbound == e.outbound == q.outbound
  {
  }

  lemma ConsumeLog(e: Endpoint, j: StreamId, n: nat)
    ensures var r := DoConsume(e, j, n); r.sent == e.sent && r.outbound == e.outbound
  {
    hide Pruned, Target;
  }

  // ---- The writer and the peer ----

  lemma WriterNoNews(e: Endpoint, j: StreamId, g: Frame)
    requires Rare(g)
    ensures NotNews(e, DoSendQueued(e), g) && NotNews(e, DoSendCredit(e, j), g)
  {
  }

  /** The frame is no news, or it closes the session with an error. */
  predicate Sober(e: Endpoint, r: Endpoint, g: Frame) {
    NotNews(e, r, g) || (g.ConnectionClose? && r.error.Some?)
  }

  lemma ErrorSober(e: Endpoint, code: nat, reason: string, room: bool, g: Frame)
    requires Rare(g)
    ensures Sober(e, ProtocolError(e, code, reason, room), g)
  {
    hide Ascii, NotNews;
    if g.ConnectionClose? {
    } else if room {
      QueuedNoNews(e, ProtocolError(e, code, reason, room), ConnectionClose(code, Ascii(reason)), g);
    } else {
      SameLogNoNews(e, ProtocolError(e, code, reason, room), g);
    }
  }

  lemma SoberTransitive(a: Endpoint, b: Endpoint, c: Endpoint, g: Frame)
    requires NotNews(a, b, g) && Sober(b, c, g)
    ensures Sober(a, c, g)
  {
    hide Log;
  }

  lemma AdmitSober(e: Endpoint, j: StreamId, queued: bool, room: bool, g: Frame)
    requires Rare(g)
    ensures Sober(e, Admit(e, j, queued, room), g)
  {
    hide NotNews, Sober, ProtocolError, HandOver, HandOverViolation;
    var e1 := if queued then Enqueue(e, InitialCredit(e, j)) else e;
    if queued { QueuedNoNews(e, e1, InitialCredit(e, j), g); } else { SameLogNoNews(e, e1, g); }
    ErrorSober(e, 3, "too many open streams", room, g);
    ErrorSober(e, 1, "duplicate stream open", room, g);
    if HandOverViolation(e, j).Some? {
      ErrorSober(e1, 3, HandOverViolation(e, j).value, room, g);
      SoberTransitive(e, e1, ProtocolError(e1, 3, HandOverViolation(e, j).value, room), g);
    } else {
      HandOverQuiet(e1, j);
      SameLogSober(e1, HandOver(e1, j), g);
      SoberTransitive(e, e1, HandOver(e1, j), g);
    }
  }

  lemma SameLogSober(e: Endpoint, r: Endpoint, g: Frame)
    requires r.sent == e.sent && r.outbound == e.outbound
    ensures Sober(e, r, g)
  {
  }

  lemma HandOverQuiet(e: Endpoint, id: StreamId)
    ensures HandOver(e, id).sent == e.sent && HandOver(e, id).outbound == e.outbound
  {
    hide DirOf;
  }

  lemma ReceiveOpenSober(e: Endpoint, j: StreamId, dir: Dir, queued: bool, room: bool, g: Frame)
    requires Rare(g)
    ensures Sober(e, ReceiveOpen(e, j, dir, queued, room), g)
  {
    hide NotNews, Sober, ProtocolError, Admit, OpenViolation, DirOf, Counter;
    if OpenViolation(e, j, dir).Some? {
      ErrorSober(e, 1, OpenViolation(e, j, dir).value, room, g);
    } else {
      SameLogNoNews(e, PassPeerFrontier(e, j), g);
      AdmitSober(PassPeerFrontier(e, j), j, queued, room, g);
      SoberTransitive(e, PassPeerFrontier(e, j), Admit(PassPeerFrontier(e, j), j, queued, room), g);
    }
  }

  lemma ReceiveStreamSober(e: Endpoint, j: StreamId, data: seq<Byte>, fin: bool, room: bool, g: Frame)
    requires Rare(g)
    ensures Sober(e, ReceiveStream(e, j, data, fin, room), g)
  {
    hide NotNews, Sober, ProtocolError, StreamViolation;
    match StreamViolation(e, j, data)
    case Some(v) => ErrorSober(e, v.0, v.1, room, g);
    case None => SameLogSober(e, ReceiveStream(e, j, data, fin, room), g);
  }

  lemma AnswerNoNews(e: Endpoint, j: StreamId, code: nat, queued: bool, g: Frame)
    requires Rare(g)
    ensures NotNews(e, AnswerStop(e, j, code, queued), g)
  {
    hide NotNews;
    var e1 := DoRemoveFlow(e, j);
    SameLogNoNews(e, e1, g);
    SameLogNoNews(e, CloseAll(e1), g);
    QueuedNoNews(e, Enqueue(e1, ResetStream(j, code)), ResetStream(j, code), g);
  }

  lemma AnswerSober(e: Endpoint, j: StreamId, code: nat, queued: bool, g: Frame)
    requires Rare(g)
    ensures Sober(e, AnswerStop(e, j, code, queued), g)
  {
    hide NotNews, AnswerStop;
    AnswerNoNews(e, j, code, queued, g);
  }

  lemma ReceiveSober(e: Endpoint, f: Frame, queued: bool, room: bool, g: Frame)
    requires Rare(g)
    ensures Sober(e, HandleFrame(e, f, queued, room), g)
  {
    hide NotNews, Sober, ProtocolError, ReceiveOpen, ReceiveStream, AnswerStop, IsRetiredDirection;
    SameLogSober(e, e, g);
    match f
    case OpenUni(j) => ReceiveOpenSober(e, j, Uni, queued, room, g);
    case OpenBi(j) => ReceiveOpenSober(e, j, Bi, queued, room, g);
    case Stream(j, data, fin) => ReceiveStreamSober(e, j, data, fin, room, g);
    case ResetStream(j, _) =>
      SameLogSober(e, RemoveRecv(e, j), g);
      ErrorSober(e, 1, "reset on unknown stream", room, g);
    case StopSending(j, code) =>
      AnswerSober(e, j, code, queued, g);
      ErrorSober(e, 1, "stop on unknown stream", room, g);
    case MaxStreamData(j, max) => SameLogSober(e, HandleFrame(e, f, queued, room), g);
    case ConnectionClose(_, _) => SameLogSober(e, CloseAll(e), g);
  }

  /** The actions by which such a frame can come into the log: an own open, or an error that the peer brings about. */
  predicate News(e: Endpoint, a: Action, g: Frame) {
    || (g.OpenUni? && a.OpenUniStream?)
    || (g.OpenBi? && a.OpenBiStream? && a.queued && NextBi(e) == Some(g.id))
    || (g.ConnectionClose? && Inbound(a) && Step(e, a).error.Some?)
  }

  lemma StepNews(e: Endpoint, a: Action, g: Frame)
    requires Rare(g)
    ensures NotNews(e, Step(e, a), g) || News(e, a, g)
  {
    hide *;
    StepForm(e, a);
    OwnNews(e, a, g);
    match a
    case OpenUniStream(queued) => if !g.OpenUni? { OpenUniNews(e, queued, g); }
    case OpenBiStream(queued, credited) => OpenBiNews(e, queued, credited, g);
    case Reserve(j, data) =>
      SpendingLog(e, j, data);
      SameLogNoNews(e, DoReserve(e, j, data), g);
    case Release(j) =>
      SpendingLog(e, j, []);
      SameLogNoNews(e, DoRelease(e, j), g);
    case Commit(j) => PublishNoNews(e, j, 0, g);
    case QueueFin(j) => PublishNoNews(e, j, 0, g);
    case QueueReset(j, code) => PublishNoNews(e, j, code, g);
    case RemoveFlow(j) =>
      RetiringLog(e, j);
      SameLogNoNews(e, DoRemoveFlow(e, j), g);
    case DropWriter(j) =>
      RetiringLog(e, j);
      SameLogNoNews(e, DoDropWriter(e, j), g);
    case AcceptUni =>
      AcceptLog(e);
      SameLogNoNews(e, DoAcceptUni(e), g);
    case AcceptBi =>
      AcceptLog(e);
      SameLogNoNews(e, DoAcceptBi(e), g);
    case PopEvent(j) =>
      ReadingLog(e, j);
      SameLogNoNews(e, DoPopEvent(e, j), g);
    case StopRead(j) =>
      ReadingLog(e, j);
      SameLogNoNews(e, DoStopRead(e, j), g);
    case DropReader(j) =>
      ReadingLog(e, j);
      SameLogNoNews(e, DoDropReader(e, j), g);
    case Consume(j, n) =>
      ConsumeLog(e, j, n);
      SameLogNoNews(e, DoConsume(e, j, n), g);
    case QueueStop(j, code) => PublishNoNews(e, j, code, g);
    case SendQueued => WriterNoNews(e, 0, g);
    case SendCredit(j) => WriterNoNews(e, j, g);
    case CloseSession =>
      ClosingLog(e);
      SameLogNoNews(e, CloseAll(e), g);
    case Receive(f, queued, room) =>
      if !e.closed { ReceiveSober(e, f, queued, room, g); } else { SameLogNoNews(e, e, g); }
      SoberNews(e, a, g);
    case Reject(problem, room) =>
      if !e.closed { ErrorSober(e, ProblemCode(problem), ProblemReason(problem), room, g); }
      SoberNews(e, a, g);
  }

  lemma ClosingLog(e: Endpoint)
    ensures CloseAll(e).sent == e.sent && CloseAll(e).outbound == e.outbound
  {
  }

  lemma SoberNews(e: Endpoint, a: Action, g: Frame)
    requires e.closed || Sober(e, Step(e, a), g)
    requires e.closed ==> Step(e, a) == e
    requires a.Receive? || a.Reject?
    ensures NotNews(e, Step(e, a), g) || News(e, a, g)
  {
    hide Step, Log;
  }

  lemma OwnNews(e: Endpoint, a: Action, g: Frame)
    ensures g.OpenUni? && a.OpenUniStream? ==> News(e, a, g)
    ensures a.OpenBiStream? && a.queued && NextBi(e).Some? && g == OpenBi(NextBi(e).value) ==> News(e, a, g)
  {
    hide Step, NextBi;
  }
}
