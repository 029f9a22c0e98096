/** The protocol requires the credits announced for a stream to grow. Grants bypass the outbound queue, so this
    is a matter of who overtakes whom: an exact condition for one endpoint, and a theorem for two honest ones. */
module CreditOrder {
  import opened VarInts
  import opened Frames
  import opened SessionLimits
  import opened Endpoints
  import opened Views
  import opened EndpointInvariant
  import opened EndpointTheorems
  import opened Links
  import opened TwoParty

  predicate IsCredit(f: Frame, id: StreamId) {
    f.MaxStreamData? && f.id == id
  }

  /** Every credit for the stream is larger than all before it. */
  predicate Rising(id: StreamId, log: seq<Frame>) {
    forall i :: 0 <= i < |log| && IsCredit(log[i], id) ==> Announced(id, log[..i]) < log[i].max
  }

  lemma {:induction false} AnnouncedCovers(id: StreamId, log: seq<Frame>, i: nat)
    requires i < |log| && IsCredit(log[i], id)
    ensures log[i].max <= Announced(id, log)
  {
    if i < |log| - 1 { AnnouncedCovers(id, log[..|log| - 1], i); }
  }

  /** Rising credits are strictly increasing along the log. */
  lemma RisingMeans(id: StreamId, log: seq<Frame>, i: nat, j: nat)
    requires Rising(id, log) && i < j < |log| && IsCredit(log[i], id) && IsCredit(log[j], id)
    ensures log[i].max < log[j].max
  {
    AnnouncedCovers(id, log[..j], i);
  }

  predicate Silent(id: StreamId, fs: seq<Frame>) {
    forall k :: 0 <= k < |fs| ==> !IsCredit(fs[k], id)
  }

  lemma {:induction false} SilentAnnounces(id: StreamId, fs: seq<Frame>)
    requires Silent(id, fs)
    ensures Announced(id, fs) == 0
  {
    if fs != [] { SilentAnnounces(id, fs[..|fs| - 1]); }
  }

  /** Silent frames at the end of a log announce nothing. */
  lemma SilentTail(id: StreamId, x: seq<Frame>, y: seq<Frame>)
    requires Silent(id, y)
    ensures Announced(id, x + y) == Announced(id, x)
  {
    Splits(id, x, y);
    SilentAnnounces(id, y);
  }

  lemma RisingPrefix(id: StreamId, log: seq<Frame>, n: nat)
    requires Rising(id, log) && n <= |log|
    ensures Rising(id, log[..n])
  {
    hide Announced;
    forall i | 0 <= i < n && IsCredit(log[..n][i], id) ensures Announced(id, log[..n][..i]) < log[..n][i].max {
      assert log[..n][..i] == log[..i];
    }
  }

  /** A rising log, one frame longer. */
  lemma RisingAppend(id: StreamId, log: seq<Frame>, f: Frame)
    requires Rising(id, log) && (IsCredit(f, id) ==> Announced(id, log) < f.max)
    ensures Rising(id, log + [f])
  {
    hide Announced;
    var all := log + [f];
    forall i | 0 <= i < |all| && IsCredit(all[i], id) ensures Announced(id, all[..i]) < all[i].max {
      assert all[..i] == log[..i];
      assert log[..|log|] == log;
    }
  }

  lemma {:induction false} RisingSilent(id: StreamId, log: seq<Frame>, fs: seq<Frame>)
    requires Rising(id, log) && Silent(id, fs)
    ensures Rising(id, log + fs)
  {
    if fs == [] {
      assert log + fs == log;
    } else {
      var most, last := fs[..|fs| - 1], fs[|fs| - 1];
      RisingSilent(id, log, most);
      RisingAppend(id, log + most, last);
      assert log + fs == log + most + [last];
    }
  }

  // ---- One endpoint, any peer ----

  /** A queued credit is the first that the stream announces. */
  predicate QueuedIsFirst(id: StreamId, sent: seq<Frame>, outbound: seq<Frame>) {
    forall k :: 0 <= k < |outbound| && IsCredit(outbound[k], id) ==> Announced(id, sent + outbound[..k]) == 0
  }

  /** The credits logged rise, a pending one is above them all, and a queued one comes before all others. */
  predicate Ordered(e: Endpoint, id: StreamId) {
    && Rising(id, Log(e)) && QueuedIsFirst(id, e.sent, e.outbound)
    && (id in e.pendingCredit ==> Announced(id, Log(e)) < e.pendingCredit[id])
  }

  /** A credit for the stream is still in the outbound queue. */
  predicate CreditQueued(e: Endpoint, id: StreamId) {
    exists k :: 0 <= k < |e.outbound| && IsCredit(e.outbound[k], id)
  }

  /** The new frames are silent about the stream, and no credit became pending for it. */
  predicate Calm(e: Endpoint, e': Endpoint, id: StreamId) {
    && e'.sent == e.sent && e.outbound <= e'.outbound && Silent(id, e'.outbound[|e.outbound|..])
    && (id in e'.pendingCredit ==> id in e.pendingCredit && e'.pendingCredit[id] == e.pendingCredit[id])
  }

  lemma CalmOrdered(e: Endpoint, e': Endpoint, id: StreamId)
    requires Ordered(e, id) && Calm(e, e', id)
    ensures Ordered(e', id) && Announced(id, Log(e')) == Announced(id, Log(e))
    ensures id in e'.pendingCredit ==> id in e.pendingCredit
  {
    hide Announced, Rising, Silent, QueuedIsFirst;
    var fs := e'.outbound[|e.outbound|..];
    assert Log(e') == Log(e) + fs;
    RisingSilent(id, Log(e), fs);
    SilentTail(id, Log(e), fs);
    FirstExtends(id, e.sent, e.outbound, fs);
    assert e'.outbound == e.outbound + fs;
  }

  lemma FirstExtends(id: StreamId, sent: seq<Frame>, outbound: seq<Frame>, fs: seq<Frame>)
    requires QueuedIsFirst(id, sent, outbound) && (Silent(id, fs) || (|fs| == 1 && Announced(id, sent + outbound) == 0))
    ensures QueuedIsFirst(id, sent, outbound + fs)
  {
    hide Announced;
    var all := outbound + fs;
    forall k | 0 <= k < |all| && IsCredit(all[k], id) ensures Announced(id, sent + all[..k]) == 0 {
      if k < |outbound| {
        assert all[..k] == outbound[..k];
      } else {
        assert all[k] == fs[k - |outbound|];
        assert all[..k] == outbound;
      }
    }
  }

  lemma EnqueueCalm(e: Endpoint, f: Frame, id: StreamId)
    requires !IsCredit(f, id)
    ensures Calm(e, Enqueue(e, f), id)
  {
  }

  lemma CalmTransitive(a: Endpoint, b: Endpoint, c: Endpoint, id: StreamId)
    requires Calm(a, b, id) && Calm(b, c, id)
    ensures Calm(a, c, id)
  {
    var n, m := |a.outbound|, |b.outbound|;
    forall k | 0 <= k < |c.outbound[n..]| ensures !IsCredit(c.outbound[n..][k], id) {
      if n + k < m {
        assert c.outbound[n..][k] == b.outbound[n..][k];
      } else {
        assert c.outbound[n..][k] == c.outbound[m..][n + k - m];
      }
    }
  }

  lemma SameQueueCalm(e: Endpoint, e': Endpoint, id: StreamId)
    requires e'.sent == e.sent && e'.outbound == e.outbound
    requires id in e'.pendingCredit ==> id in e.pendingCredit && e'.pendingCredit[id] == e.pendingCredit[id]
    ensures Calm(e, e', id)
  {
  }

  lemma ErrorCalm(e: Endpoint, code: nat, reason: string, room: bool, id: StreamId)
    ensures Calm(e, ProtocolError(e, code, reason, room), id)
  {
    hide Ascii;
    var f := ConnectionClose(code, Ascii(reason));
    assert room ==> ProtocolError(e, code, reason, room).outbound == e.outbound + [f];
  }

  lemma SendCalm(e: Endpoint, j: StreamId, data: seq<Byte>, id: StreamId)
    ensures Calm(e, DoReserve(e, j, data), id) && Calm(e, DoRelease(e, j), id)
  {
    hide Calm, Min;
    SameQueueCalm(e, DoReserve(e, j, data), id);
    SameQueueCalm(e, DoRelease(e, j), id);
  }

  lemma PublishCalm(e: Endpoint, j: StreamId, id: StreamId)
    ensures Calm(e, DoCommit(e, j), id) && Calm(e, DoQueueFin(e, j), id)
  {
    hide Calm, Enqueue;
    SameQueueCalm(e, e, id);
    if j in e.sendFlows {
      var fl := e.sendFlows[j];
      var e1, e2 := e.(sendFlows := e.sendFlows[j := fl.(reserved := [])]),
          e.(sendFlows := e.sendFlows[j := fl.(finQueued := true)]);
      SameQueueCalm(e, e1, id);
      SameQueueCalm(e, e2, id);
      EnqueueCalm(e1, Stream(j, fl.reserved, false), id);
      EnqueueCalm(e2, Stream(j, [], true), id);
      CalmTransitive(e, e1, Enqueue(e1, Stream(j, fl.reserved, false)), id);
      CalmTransitive(e, e2, Enqueue(e2, Stream(j, [], true)), id);
    }
  }

  lemma ControlCalm(e: Endpoint, j: StreamId, code: nat, id: StreamId)
    ensures Calm(e, DoQueueReset(e, j, code), id) && Calm(e, DoQueueStop(e, j, code), id)
    ensures Calm(e, DoRemoveFlow(e, j), id) && Calm(e, DoDropWriter(e, j), id)
  {
    hide Calm, Enqueue;
    SameQueueCalm(e, e, id);
    SameQueueCalm(e, DoRemoveFlow(e, j), id);
    SameQueueCalm(e, DoDropWriter(e, j), id);
    EnqueueCalm(e, ResetStream(j, code), id);
    EnqueueCalm(e, StopSending(j, code), id);
  }

  lemma PopCalm(e: Endpoint, j: StreamId, id: StreamId)
    ensures Calm(e, DoPopEvent(e, j), id)
  {
    hide Calm;
    SameQueueCalm(e, DoPopEvent(e, j), id);
  }

  lemma AcceptCalm(e: Endpoint, id: StreamId)
    ensures Calm(e, DoAcceptUni(e), id) && Calm(e, DoAcceptBi(e), id)
  {
    hide Calm;
    SameQueueCalm(e, DoAcceptUni(e), id);
    SameQueueCalm(e, DoAcceptBi(e), id);
  }

  lemma StopCalm(e: Endpoint, j: StreamId, id: StreamId)
    ensures Calm(e, DoStopRead(e, j), id) && Calm(e, DoDropReader(e, j), id)
  {
    hide Calm;
    SameQueueCalm(e, DoStopRead(e, j), id);
    SameQueueCalm(e, DoDropReader(e, j), id);
  }

  lemma CloseCalm(e: Endpoint, id: StreamId)
    ensures Calm(e, CloseAll(e), id)
  {
  }

  lemma OtherConsumeCalm(e: Endpoint, j: StreamId, n: nat, id: StreamId)
    requires j != id
    ensures Calm(e, DoConsume(e, j, n), id)
  {
    hide Calm, QueueCredit, Target;
    SameQueueCalm(e, e, id);
    if j !in e.readers || n == 0 || n > |e.readers[j].pending| { return; }
    var rd1 := Handed(e.readers[j], n);
    var target := Target(e.limits.initialStreamWindow, rd1.consumed);
    SameQueueCalm(e, e.(readers := e.readers[j := rd1]), id);
    var e1 := Raised(e, j, rd1.(granted := target));
    QueueCreditCalm(e1, j, target, id);
    SameQueueCalm(e, QueueCredit(e1, j, target), id);
  }

  lemma QueueCreditCalm(e: Endpoint, j: StreamId, maximum: nat, id: StreamId)
    requires j != id
    ensures var e' := QueueCredit(e, j, maximum);
            && e'.sent == e.sent && e'.outbound == e.outbound
            && (id in e'.pendingCredit ==> id in e.pendingCredit && e'.pendingCredit[id] == e.pendingCredit[id])
  {
    hide Pruned;
  }

  // ---- Opening: the initial credit ----

  lemma UnknownIsBlank(e: Endpoint, id: StreamId)
    requires StreamOk(e, id) && !Known(e, id)
    ensures id !in e.pendingCredit && Announced(id, Log(e)) == 0
  {
    hide Fold, Known, Local, FlowInv, ReaderInv, StreamInv, CanSend, Announced;
    FoldShaped(id, e.isServer, Log(e));
    ViewMeans(id, e.isServer, Log(e));
  }

  lemma InitialCreditOrdered(e: Endpoint, id: StreamId)
    requires Ordered(e, id) && Announced(id, Log(e)) == 0 && id !in e.pendingCredit && e.limits.initialStreamWindow > 0
    ensures Ordered(Enqueue(e, InitialCredit(e, id)), id)
  {
    hide Announced, Rising, QueuedIsFirst, Silent;
    var f := InitialCredit(e, id);
    RisingAppend(id, Log(e), f);
    FirstExtends(id, e.sent, e.outbound, [f]);
    assert Log(Enqueue(e, f)) == Log(e) + [f];
  }

  lemma RegisterCalm(e: Endpoint, j: StreamId, id: StreamId)
    ensures Calm(e, RegisterSend(e, j), id) && Calm(e, RegisterRecv(e, j), id)
    ensures Calm(e, e.(nextUni := e.nextUni + 1), id) && Calm(e, e.(nextBi := e.nextBi + 1), id)
  {
  }

  lemma OpenUniOrdered(e: Endpoint, queued: bool, id: StreamId)
    requires Ordered(e, id)
    ensures Ordered(DoOpenUni(e, queued), id)
  {
    hide Ordered, Calm, NewId, RegisterSend, Enqueue, SendSlotFree, Announced, Log;
    var e1 := e.(nextUni := e.nextUni + 1);
    RegisterCalm(e, 0, id);
    CalmOrdered(e, e1, id);
    var got := NewId(e.nextUni, e.isServer, Uni);
    if got.Some? {
      var e2 := RegisterSend(e1, got.value);
      RegisterCalm(e1, got.value, id);
      CalmOrdered(e1, e2, id);
      EnqueueCalm(e2, OpenUni(got.value), id);
      CalmOrdered(e2, Enqueue(e2, OpenUni(got.value)), id);
    }
  }

  lemma OpenBiOrdered(e: Endpoint, queued: bool, credited: bool, id: StreamId)
    requires Valid(e.limits) && StreamOk(e, id) && Ordered(e, id)
    ensures Ordered(DoOpenBi(e, queued, credited), id)
  {
    hide StreamOk, Ordered, Calm, NewId, RegisterSend, RegisterRecv, Enqueue, Known, Announced;
    var e1 := e.(nextBi := e.nextBi + 1);
    RegisterCalm(e, 0, id);
    CalmOrdered(e, e1, id);
    var got := NewId(e.nextBi, e.isServer, Bi);
    if got.None? || e.closed || !SendSlotFree(e, got.value) || !queued { return; }
    var j := got.value;
    EnqueueCalm(e1, OpenBi(j), id);
    CalmOrdered(e1, Enqueue(e1, OpenBi(j)), id);
    if !credited { return; }
    var e2 := RegisterSend(e1, j);
    var e3 := RegisterRecv(e2, j);
    var e4 := Enqueue(e3, OpenBi(j));
    RegisterCalm(e1, j, id);
    RegisterCalm(e2, j, id);
    EnqueueCalm(e3, OpenBi(j), id);
    CalmOrdered(e1, e2, id);
    CalmOrdered(e2, e3, id);
    CalmOrdered(e3, e4, id);
    if id == j {
      if Known(e, id) { UnknownAllocation(e, Bi, j, id); }
      UnknownIsBlank(e, id);
    }
    FirstCreditOrdered(e, e4, j, id);
  }

  /** The initial credit of stream j, queued by a state that has announced nothing about j since e. */
  lemma FirstCreditOrdered(e: Endpoint, e': Endpoint, j: StreamId, id: StreamId)
    requires Valid(e.limits) && e'.limits == e.limits && Ordered(e', id)
    requires id == j ==> Announced(id, Log(e')) == 0 && id !in e'.pendingCredit
    ensures Ordered(Enqueue(e', InitialCredit(e, j)), id)
  {
    hide Ordered, Calm, Announced;
    if id == j {
      InitialCreditOrdered(e', id);
    } else {
      EnqueueCalm(e', InitialCredit(e, j), id);
      CalmOrdered(e', Enqueue(e', InitialCredit(e, j)), id);
    }
  }

  // ---- Inbound frames ----

  lemma PassCalm(e: Endpoint, j: StreamId, id: StreamId)
    ensures Calm(e, PassPeerFrontier(e, j), id) && PassPeerFrontier(e, j).limits == e.limits
  {
    hide DirOf, Counter;
  }

  lemma HandOverCalm(e: Endpoint, j: StreamId, id: StreamId)
    ensures Calm(e, HandOver(e, j), id)
  {
    hide DirOf;
  }

  lemma AdmitOrdered(e: Endpoint, j: StreamId, queued: bool, room: bool, id: StreamId)
    requires Valid(e.limits) && Ordered(e, id)
    requires id == j ==> Announced(id, Log(e)) == 0 && id !in e.pendingCredit
    ensures Ordered(Admit(e, j, queued, room), id)
  {
    hide Ordered, Calm, ProtocolError, HandOver, HandOverViolation, Enqueue, Announced;
    ErrorCalm(e, 3, "too many open streams", room, id);
    CalmOrdered(e, ProtocolError(e, 3, "too many open streams", room), id);
    ErrorCalm(e, 1, "duplicate stream open", room, id);
    CalmOrdered(e, ProtocolError(e, 1, "duplicate stream open", room), id);
    var e1 := if queued then Enqueue(e, InitialCredit(e, j)) else e;
    FirstCreditOrdered(e, e, j, id);
    HandOverCalm(e1, j, id);
    CalmOrdered(e1, HandOver(e1, j), id);
    if HandOverViolation(e, j).Some? {
      ErrorCalm(e1, 3, HandOverViolation(e, j).value, room, id);
      CalmOrdered(e1, ProtocolError(e1, 3, HandOverViolation(e, j).value, room), id);
    }
  }

  lemma ReceiveOpenOrdered(e: Endpoint, j: StreamId, dir: Dir, queued: bool, room: bool, id: StreamId)
    requires Valid(e.limits) && StreamOk(e, id) && Ordered(e, id)
    ensures Ordered(ReceiveOpen(e, j, dir, queued, room), id)
  {
    hide StreamOk, Ordered, Calm, ProtocolError, Admit, Known, Local, DirOf, PassPeerFrontier, Announced;
    if OpenViolation(e, j, dir).Some? {
      ErrorCalm(e, 1, OpenViolation(e, j, dir).value, room, id);
      CalmOrdered(e, ProtocolError(e, 1, OpenViolation(e, j, dir).value, room), id);
    } else {
      PassCalm(e, j, id);
      CalmOrdered(e, PassPeerFrontier(e, j), id);
      if id == j { UnknownIsBlank(e, id); }
      AdmitOrdered(PassPeerFrontier(e, j), j, queued, room, id);
    }
  }

  lemma DataCalm(e: Endpoint, j: StreamId, data: seq<Byte>, fin: bool, room: bool, id: StreamId)
    ensures Calm(e, ReceiveStream(e, j, data, fin, room), id)
  {
    hide Calm, ProtocolError;
    var v := StreamViolation(e, j, data);
    if v.Some? {
      ErrorCalm(e, v.value.0, v.value.1, room, id);
    } else {
      SameQueueCalm(e, Accounted(e, j, data, fin), id);
    }
  }

  lemma EndCalm(e: Endpoint, j: StreamId, max: nat, id: StreamId)
    ensures Calm(e, RemoveRecv(e, j), id)
    ensures j in e.sendFlows ==> Calm(e,
              e.(sendFlows := e.sendFlows[j := e.sendFlows[j].(maxData := Max(e.sendFlows[j].maxData, max))]), id)
  {
    hide Max;
  }

  lemma AnswerCalm(e: Endpoint, j: StreamId, code: nat, queued: bool, id: StreamId)
    ensures Calm(e, AnswerStop(e, j, code, queued), id)
  {
  }

  lemma ReceiveOrdered(e: Endpoint, f: Frame, queued: bool, room: bool, id: StreamId)
    requires Valid(e.limits) && StreamOk(e, id) && Ordered(e, id)
    ensures Ordered(HandleFrame(e, f, queued, room), id)
  {
    hide Valid, StreamOk, Ordered, ReceiveOpen;
    match f
    case OpenUni(j) => ReceiveOpenOrdered(e, j, Uni, queued, room, id);
    case OpenBi(j) => ReceiveOpenOrdered(e, j, Bi, queued, room, id);
    case _ =>
      QuietReceive(e, f, queued, room, id);
      CalmOrdered(e, HandleFrame(e, f, queued, room), id);
  }

  lemma QuietReceive(e: Endpoint, f: Frame, queued: bool, room: bool, id: StreamId)
    requires !f.OpenUni? && !f.OpenBi?
    ensures Calm(e, HandleFrame(e, f, queued, room), id)
  {
    hide Calm, ProtocolError, ReceiveStream, IsRetiredDirection, RemoveRecv, AnswerStop, CloseAll, Max;
    SameQueueCalm(e, e, id);
    ErrorCalm(e, 1, "reset on unknown stream", room, id);
    ErrorCalm(e, 1, "stop on unknown stream", room, id);
    match f
    case Stream(j, data, fin) => DataCalm(e, j, data, fin, room, id);
    case ResetStream(j, _) => EndCalm(e, j, 0, id);
    case StopSending(j, code) => AnswerCalm(e, j, code, queued, id);
    case MaxStreamData(j, max) => EndCalm(e, j, max, id);
    case ConnectionClose(_, _) => CloseCalm(e, id);
  }

  // ---- Granting and writing ----

  /** A new grant is above everything announced, because it is above the limit in force. */
  lemma ConsumeOrdered(e: Endpoint, id: StreamId, n: nat)
    requires StreamOk(e, id) && Ordered(e, id)
    ensures Ordered(DoConsume(e, id, n), id)
  {
    hide Rising, QueuedIsFirst, Announced, StreamOk, Target, QueueCredit;
    if id !in e.readers || n == 0 || n > |e.readers[id].pending| { return; }
    var rd := e.readers[id];
    var rd1 := Handed(rd, n);
    var target := Target(e.limits.initialStreamWindow, rd1.consumed);
    if target <= rd1.granted || target - rd1.granted < e.limits.windowUpdateThreshold || rd1.finished
        || rd1.stopSent { return; }
    var e1 := Raised(e, id, rd1.(granted := target));
    QueueCreditEffect(e1, id, target, id);
    if id in e.streams && !e.streams[id].stopped { LimitInForce(e, id); }
    GrantedLog(e1, id, target);
  }

  lemma GrantedLog(e: Endpoint, id: StreamId, maximum: nat)
    ensures QueueCredit(e, id, maximum).sent == e.sent && QueueCredit(e, id, maximum).outbound == e.outbound
  {
    hide Pruned;
  }

  lemma LimitInForce(e: Endpoint, id: StreamId)
    requires StreamOk(e, id) && id in e.streams && !e.streams[id].stopped
    ensures id in e.readers && Announced(id, Log(e)) <= e.readers[id].granted
  {
    hide Fold, Known, Local, FlowInv, ReaderInv, CanSend, Ready, Announced, NoFin, Arrived;
    ViewMeans(id, e.isServer, Log(e));
  }

  lemma SendQueuedOrdered(e: Endpoint, id: StreamId)
    requires Ordered(e, id)
    ensures Ordered(DoSendQueued(e), id)
  {
    hide Rising, Announced;
    if e.outbound == [] { return; }
    var e' := DoSendQueued(e);
    assert Log(e') == Log(e);
    forall k | 0 <= k < |e'.outbound| && IsCredit(e'.outbound[k], id)
      ensures Announced(id, e'.sent + e'.outbound[..k]) == 0
    {
      assert e'.sent + e'.outbound[..k] == e.sent + e.outbound[..k + 1];
    }
  }

  /** A frame slips in between what was sent and what is queued. */
  lemma Insertion(id: StreamId, sent: seq<Frame>, c: Frame, queued: seq<Frame>)
    ensures Announced(id, sent + [c] + queued)
            == Max(Announced(id, sent + queued), if IsCredit(c, id) then c.max else 0)
  {
    hide Announced;
    Splits(id, sent + [c], queued);
    Splits(id, sent, queued);
    LastFrame(id, sent, c);
  }

  lemma InsertionRises(id: StreamId, sent: seq<Frame>, c: Frame, queued: seq<Frame>)
    requires Rising(id, sent + queued)
    requires IsCredit(c, id) ==> Announced(id, sent) < c.max && Silent(id, queued)
    ensures Rising(id, sent + [c] + queued)
  {
    hide Announced;
    RisingPrefix(id, sent + queued, |sent|);
    assert (sent + queued)[..|sent|] == sent;
    RisingAppend(id, sent, c);
    if IsCredit(c, id) {
      RisingSilent(id, sent + [c], queued);
    } else {
      var all, n := sent + [c] + queued, |sent| + 1;
      forall i | 0 <= i < |all| && IsCredit(all[i], id) ensures Announced(id, all[..i]) < all[i].max {
        if i < n {
          assert all[..i] == (sent + [c])[..i] && all[i] == (sent + [c])[i];
        } else {
          var k := i - n;
          assert all[..i] == sent + [c] + queued[..k] && (sent + queued)[..i - 1] == sent + queued[..k];
          assert (sent + queued)[i - 1] == all[i];
          Insertion(id, sent, c, queued[..k]);
        }
      }
    }
  }

  lemma SendCreditLog(e: Endpoint, j: StreamId)
    requires j in e.pendingCredit
    ensures Log(DoSendCredit(e, j)) == e.sent + [MaxStreamData(j, e.pendingCredit[j])] + e.outbound
  {
  }

  lemma OtherCreditOrdered(e: Endpoint, j: StreamId, id: StreamId)
    requires Ordered(e, id) && j != id
    ensures Ordered(DoSendCredit(e, j), id)
  {
    hide Rising, Announced;
    if j !in e.pendingCredit { return; }
    var e', c := DoSendCredit(e, j), MaxStreamData(j, e.pendingCredit[j]);
    SendCreditLog(e, j);
    InsertionRises(id, e.sent, c, e.outbound);
    Insertion(id, e.sent, c, e.outbound);
    forall k | 0 <= k < |e'.outbound| && IsCredit(e'.outbound[k], id)
      ensures Announced(id, e'.sent + e'.outbound[..k]) == 0
    {
      Insertion(id, e.sent, c, e.outbound[..k]);
    }
  }

  /** A grant leaves the order intact exactly when no older credit for its stream is still queued. */
  lemma OwnCreditOrdered(e: Endpoint, id: StreamId)
    requires Ordered(e, id) && id in e.pendingCredit
    ensures Ordered(DoSendCredit(e, id), id) <==> !CreditQueued(e, id)
  {
    hide Rising, Announced;
    var e', c := DoSendCredit(e, id), MaxStreamData(id, e.pendingCredit[id]);
    SendCreditLog(e, id);
    if CreditQueued(e, id) {
      var k :| 0 <= k < |e.outbound| && IsCredit(e.outbound[k], id);
      Overtaken(e, id, k);
    } else {
      Splits(id, e.sent, e.outbound);
      InsertionRises(id, e.sent, c, e.outbound);
    }
  }

  lemma Overtaken(e: Endpoint, id: StreamId, k: nat)
    requires Ordered(e, id) && id in e.pendingCredit && k < |e.outbound| && IsCredit(e.outbound[k], id)
    ensures !Rising(id, e.sent + [MaxStreamData(id, e.pendingCredit[id])] + e.outbound)
  {
    hide Announced;
    var c := MaxStreamData(id, e.pendingCredit[id]);
    var all, i := e.sent + [c] + e.outbound, |e.sent| + 1 + k;
    AnnouncedCovers(id, Log(e), |e.sent| + k);
    AnnouncedCovers(id, all[..i], |e.sent|);
    assert all[i] == e.outbound[k] == Log(e)[|e.sent| + k] && all[..i][|e.sent|] == c;
  }

  /** For one endpoint and any peer: a step keeps the credits of a stream rising if and only if it does not send a
      pending grant past a credit of the same stream that is still queued. */
  lemma StepOrder(e: Endpoint, a: Action, id: StreamId)
    requires AllOk(e) && Ordered(e, id)
    ensures Ordered(Step(e, a), id) <==> !Overtakes(e, a, id)
  {
    if a == SendCredit(id) {
      hide Ordered;
      if id in e.pendingCredit { OwnCreditOrdered(e, id); }
    } else {
      OtherStepOrdered(e, a, id);
    }
  }

  lemma OtherStepOrdered(e: Endpoint, a: Action, id: StreamId)
    requires AllOk(e) && Ordered(e, id) && a != SendCredit(id)
    ensures Ordered(Step(e, a), id)
  {
    hide *;
    StreamOf(e, id);
    ValidOf(e);
    StepForm(e, a);
    match a
    case OpenUniStream(queued) => OpenUniOrdered(e, queued, id);
    case OpenBiStream(queued, credited) => OpenBiOrdered(e, queued, credited, id);
    case Consume(j, n) =>
      if j == id {
        ConsumeOrdered(e, id, n);
      } else {
        OtherConsumeCalm(e, j, n, id);
        CalmOrdered(e, DoConsume(e, j, n), id);
      }
    case SendQueued => SendQueuedOrdered(e, id);
    case SendCredit(j) => OtherCreditOrdered(e, j, id);
    case Receive(f, queued, room) => if !e.closed { ReceiveOrdered(e, f, queued, room, id); }
    case _ =>
      StepCalm(e, a, id);
      CalmOrdered(e, Step(e, a), id);
  }

  lemma StepCalm(e: Endpoint, a: Action, id: StreamId)
    requires !a.OpenUniStream? && !a.OpenBiStream? && !a.SendQueued? && !a.SendCredit? && !a.Receive? && !a.Consume?
    ensures Calm(e, Step(e, a), id)
  {
    hide *;
    StepForm(e, a);
    match a
    case Reserve(j, data) => SendCalm(e, j, data, id);
    case Release(j) => SendCalm(e, j, [], id);
    case Commit(j) => PublishCalm(e, j, id);
    case QueueFin(j) => PublishCalm(e, j, id);
    case RemoveFlow(j) => ControlCalm(e, j, 0, id);
    case QueueReset(j, code) => ControlCalm(e, j, code, id);
    case DropWriter(j) => ControlCalm(e, j, 0, id);
    case AcceptUni => AcceptCalm(e, id);
    case AcceptBi => AcceptCalm(e, id);
    case QueueStop(j, code) => ControlCalm(e, j, code, id);
    case PopEvent(j) => PopCalm(e, j, id);
    case StopRead(j) => StopCalm(e, j, id);
    case DropReader(j) => StopCalm(e, j, id);
    case Reject(problem, room) => RejectCalm(e, problem, room, id);
    case CloseSession => CloseCalm(e, id);
    case _ =>
  }

  lemma RejectCalm(e: Endpoint, problem: Problem, room: bool, id: StreamId)
    ensures Calm(e, Step(e, Reject(problem, room)), id)
  {
    hide Calm, ProtocolError, ProblemReason;
    SameQueueCalm(e, e, id);
    ErrorCalm(e, ProblemCode(problem), ProblemReason(problem), room, id);
  }

  // ---- Two honest endpoints ----

  /** The credits of one side are in order, and a grant is pending only after data was processed. */
  ghost predicate OrderSide(s: System)
    requires Shape(s)
  {
    forall id :: Ordered(s.a, id) && (id in s.a.pendingCredit ==> ByA(s, id).bytes != [])
  }

  ghost predicate OrderInv(s: System) {
    Inv(s) && OrderSide(s) && OrderSide(Flip(s))
  }

  lemma OrderOf(s: System, id: StreamId)
    requires OrderInv(s)
    ensures Ordered(s.a, id) && (id in s.a.pendingCredit ==> ByA(s, id).bytes != [])
  {
    hide Ordered, SeenView, OneSide;
  }

  /** The peer has data in the stream only after processing a credit for it. */
  lemma DataMeansCredit(s: System, id: StreamId)
    requires Inv(s) && ByA(s, id).bytes != []
    ensures Announced(id, s.a.sent) > 0
  {
    hide Announced, Carried, Inv, SeenView;
    var sent := s.a.sent;
    assert Shape(s) by { ShapeOf(s); }
    TransitMeans(s, id);
    FlipInv(s);
    TransitMeans(Flip(s), id);
    PeerGuarantees(s, id);
    Splits(id, sent[..s.seenByB], sent[s.seenByB..]);
    assert sent == sent[..s.seenByB] + sent[s.seenByB..];
  }

  /** So no credit is still queued once a grant is pending. */
  lemma PendingNotQueued(s: System, id: StreamId)
    requires OrderInv(s) && id in s.a.pendingCredit
    ensures !CreditQueued(s.a, id)
  {
    hide Announced, OrderInv, Rising, Inv;
    OrderOf(s, id);
    InvOf(s);
    DataMeansCredit(s, id);
    forall k | 0 <= k < |s.a.outbound| ensures Announced(id, s.a.sent + s.a.outbound[..k]) > 0 {
      Splits(id, s.a.sent, s.a.outbound[..k]);
    }
  }

  lemma InvOf(s: System)
    requires OrderInv(s)
    ensures Inv(s) && Shape(s)
  {
    hide OneSide, OrderSide;
  }

  lemma ReadMeansBytes(s: System, id: StreamId)
    requires Inv(s) && id in s.a.readers && s.a.readers[id].pending != []
    ensures ByA(s, id).bytes != []
  {
    assert |Arrived(s.a.readers[id])| > 0;
    LinkOf(s, id);
    hide Arrived, Fold, Known, CanSend, HasFin, Local, SeenView, OneSide, Inv;
  }

  /** Only reading makes a grant pending. */
  lemma PendingFrom(e: Endpoint, a: Action, id: StreamId)
    requires id in Step(e, a).pendingCredit
    ensures id in e.pendingCredit || (a.Consume? && a.id == id && id in e.readers && e.readers[id].pending != [])
  {
    hide *;
    StepForm(e, a);
    match a
    case OpenUniStream(queued) => OpensKeepPending(e, queued, true);
    case OpenBiStream(queued, credited) => OpensKeepPending(e, queued, credited);
    case Consume(j, n) =>
      if j != id {
        OtherConsumeCalm(e, j, n, id);
        CalmPending(e, DoConsume(e, j, n), id);
      } else {
        NothingToConsume(e, id, n);
      }
    case SendQueued => OpensKeepPending(e, true, true);
    case SendCredit(j) => CreditsSpent(e, j);
    case Receive(f, queued, room) => if !e.closed { ReceiveKeepsPending(e, f, queued, room, id); }
    case _ =>
      StepCalm(e, a, id);
      CalmPending(e, Step(e, a), id);
  }

  lemma CreditsSpent(e: Endpoint, j: StreamId)
    ensures DoSendCredit(e, j).pendingCredit.Keys <= e.pendingCredit.Keys
  {
  }

  lemma CalmPending(e: Endpoint, e': Endpoint, id: StreamId)
    requires Calm(e, e', id) && id in e'.pendingCredit
    ensures id in e.pendingCredit
  {
  }

  lemma NothingToConsume(e: Endpoint, id: StreamId, n: nat)
    ensures id !in e.readers || e.readers[id].pending == [] ==> DoConsume(e, id, n) == e
  {
    hide QueueCredit, Target;
  }

  lemma OpensKeepPending(e: Endpoint, queued: bool, credited: bool)
    ensures DoOpenUni(e, queued).pendingCredit == e.pendingCredit
            && DoOpenBi(e, queued, credited).pendingCredit == e.pendingCredit
    ensures DoSendQueued(e).pendingCredit == e.pendingCredit
  {
    hide DoOpenBi, NewId, NewReader;
    OpenBiKeepsPending(e, queued, credited);
  }

  lemma OpenBiKeepsPending(e: Endpoint, queued: bool, credited: bool)
    ensures DoOpenBi(e, queued, credited).pendingCredit == e.pendingCredit
  {
    hide NewId, NewReader, SendSlotFree;
  }

  lemma ReceiveKeepsPending(e: Endpoint, f: Frame, queued: bool, room: bool, id: StreamId)
    requires id in HandleFrame(e, f, queued, room).pendingCredit
    ensures id in e.pendingCredit
  {
    if f.OpenUni? || f.OpenBi? {
      hide ReceiveOpen;
      OpenedPending(e, f.id, if f.OpenUni? then Uni else Bi, queued, room);
    } else {
      hide HandleFrame;
      QuietReceive(e, f, queued, room, id);
    }
  }

  lemma OpenedPending(e: Endpoint, j: StreamId, dir: Dir, queued: bool, room: bool)
    ensures ReceiveOpen(e, j, dir, queued, room).pendingCredit in {e.pendingCredit, map[]}
  {
    hide ProtocolError, Admit, OpenViolation, DirOf, Counter;
    if OpenViolation(e, j, dir).Some? {
      ErrorForgetsCredit(e, 1, OpenViolation(e, j, dir).value, room);
    } else {
      AdmittedPending(PassPeerFrontier(e, j), j, queued, room);
    }
  }

  lemma AdmittedPending(e: Endpoint, j: StreamId, queued: bool, room: bool)
    ensures Admit(e, j, queued, room).pendingCredit in {e.pendingCredit, map[]}
  {
    hide ProtocolError, HandOverViolation, DirOf, NewReader;
    var e1 := if queued then Enqueue(e, InitialCredit(e, j)) else e;
    ErrorForgetsCredit(e, 3, "too many open streams", room);
    ErrorForgetsCredit(e, 1, "duplicate stream open", room);
    if HandOverViolation(e, j).Some? { ErrorForgetsCredit(e1, 3, HandOverViolation(e, j).value, room); }
  }

  lemma ErrorForgetsCredit(e: Endpoint, code: nat, reason: string, room: bool)
    ensures ProtocolError(e, code, reason, room).pendingCredit == map[]
  {
    hide Ascii;
  }

  /** What one side's step does to the order of its own credits. */
  lemma ActOrderAt(s: System, action: Action, id: StreamId)
    requires OrderInv(s) && !Inbound(action)
    ensures Ordered(Step(s.a, action), id)
    ensures id in Step(s.a, action).pendingCredit ==> ByA(s, id).bytes != []
  {
    hide Ordered, Step, SeenView, OrderInv, Inv, AllOk, CreditQueued;
    InvOf(s);
    OrderOf(s, id);
    OkOf(s);
    StepOrder(s.a, action, id);
    if id in s.a.pendingCredit { PendingNotQueued(s, id); }
    if id in Step(s.a, action).pendingCredit {
      PendingFrom(s.a, action, id);
      if id !in s.a.pendingCredit { ReadMeansBytes(s, id); }
    }
  }

  lemma DeliverOrderAt(s: System, queued: bool, room: bool, id: StreamId)
    requires OrderInv(s) && s.seenByA < |s.b.sent|
    ensures var e' := Step(s.a, Receive(s.b.sent[s.seenByA], queued, room));
            Ordered(e', id) && (id in e'.pendingCredit ==> SeenView(s.b, s.seenByA + 1, id).bytes != [])
  {
    hide Ordered, Step, SeenView, OrderInv, Inv, AllOk, CreditQueued, Observe;
    var a := Receive(s.b.sent[s.seenByA], queued, room);
    InvOf(s);
    OrderOf(s, id);
    OkOf(s);
    StepOrder(s.a, a, id);
    NextFrame(s, id);
    if id in Step(s.a, a).pendingCredit { PendingFrom(s.a, a, id); }
  }

  /** The other side is not affected: what it has seen stays. */
  lemma OtherSideOrder(s: System, s': System)
    requires OrderInv(s) && Shape(s') && SameRole(s.a, s'.a) && s'.b == s.b && s'.seenByB == s.seenByB
    ensures OrderSide(Flip(s'))
  {
    hide Ordered, SeenView, OrderInv;
    forall id ensures Ordered(s'.b, id) && (id in s'.b.pendingCredit ==> ByA(Flip(s'), id).bytes != []) {
      InvOf(s);
      SeenStays(s.a, s'.a, s.seenByB, id);
      FlipOrder(s);
      OrderOf(Flip(s), id);
    }
  }

  lemma ActOrder(s: System, action: Action)
    requires OrderInv(s)
    ensures OrderInv(ActA(s, action))
  {
    hide Ordered, Step, SeenView, OneSide, OrderSide;
    if Inbound(action) { return; }
    var s' := ActA(s, action);
    InvOf(s);
    ActInv(s, action);
    OtherSideOrder(s, s');
    assert OrderSide(s') by {
      forall id ensures Ordered(s'.a, id) && (id in s'.a.pendingCredit ==> ByA(s', id).bytes != []) {
        ActOrderAt(s, action, id);
      }
      OrderIntro(s');
    }
  }

  lemma OrderIntro(s: System)
    requires Shape(s) && forall id :: Ordered(s.a, id) && (id in s.a.pendingCredit ==> ByA(s, id).bytes != [])
    ensures OrderSide(s)
  {
    hide Ordered, SeenView;
  }

  lemma OkOf(s: System)
    requires Inv(s)
    ensures AllOk(s.a)
  {
    hide AllOk, LinkOk, SeenView;
  }

  lemma FlipOrder(s: System)
    requires OrderInv(s)
    ensures OrderInv(Flip(s))
  {
    hide Inv, OrderSide;
    FlipInv(s);
  }

  lemma DeliverOrder(s: System, queued: bool, room: bool)
    requires OrderInv(s)
    ensures OrderInv(DeliverA(s, queued, room))
  {
    hide Ordered, Step, SeenView, OneSide, OrderSide;
    if s.a.closed || s.seenByA >= |s.b.sent| { return; }
    var s' := DeliverA(s, queued, room);
    InvOf(s);
    DeliverInv(s, queued, room);
    OtherSideOrder(s, s');
    assert OrderSide(s') by {
      forall id ensures Ordered(s'.a, id) && (id in s'.a.pendingCredit ==> ByA(s', id).bytes != []) {
        DeliverOrderAt(s, queued, room, id);
      }
      OrderIntro(s');
    }
  }

  lemma StartOrder(la: Limits, lb: Limits)
    requires Valid(la) && Valid(lb)
    ensures OrderInv(Start(la, lb))
  {
    hide Inv;
    OpeningInv(false, la, lb);
  }

  lemma {:induction false} PlayOrder(s: System, moves: seq<Move>)
    requires OrderInv(s)
    ensures OrderInv(Play(s, moves))
  {
    hide OrderInv, ActA, DeliverA, Flip;
    if moves != [] {
      var mid := Play(s, moves[..|moves| - 1]);
      PlayOrder(s, moves[..|moves| - 1]);
      FlipOrder(mid);
      match moves[|moves| - 1]
      case Act(byA, action) =>
        ActOrder(mid, action);
        ActOrder(Flip(mid), action);
        FlipOrder(ActA(Flip(mid), action));
      case Deliver(toA, queued, room) =>
        DeliverOrder(mid, queued, room);
        DeliverOrder(Flip(mid), queued, room);
        FlipOrder(DeliverA(Flip(mid), queued, room));
    }
  }

  /** Between two honest endpoints the credits announced for a stream strictly increase on the wire. */
  lemma CreditsRise(la: Limits, lb: Limits, moves: seq<Move>, flipped: bool, id: StreamId, i: nat, j: nat)
    requires Valid(la) && Valid(lb)
    requires var sent := Facing(Play(Start(la, lb), moves), flipped).a.sent;
             i < j < |sent| && IsCredit(sent[i], id) && IsCredit(sent[j], id)
    ensures var sent := Facing(Play(Start(la, lb), moves), flipped).a.sent;
            sent[i].max < sent[j].max
  {
    hide OrderInv, Ordered, Valid, Rising;
    StartOrder(la, lb);
    PlayOrder(Start(la, lb), moves);
    FlipOrder(Play(Start(la, lb), moves));
    var s := Facing(Play(Start(la, lb), moves), flipped);
    OrderOf(s, id);
    SentRises(s.a, id);
    RisingMeans(id, s.a.sent, i, j);
  }

  lemma SentRises(e: Endpoint, id: StreamId)
    requires Ordered(e, id)
    ensures Rising(id, e.sent)
  {
    hide Rising, Announced;
    RisingPrefix(id, Log(e), |e.sent|);
    assert Log(e)[..|e.sent|] == e.sent;
  }

  // ---- Opens of other streams ----

  lemma OpenUniCalm(e: Endpoint, queued: bool, id: StreamId)
    ensures Calm(e, DoOpenUni(e, queued), id)
  {
    hide Calm, NewId, RegisterSend, Enqueue, SendSlotFree;
    var e1 := e.(nextUni := e.nextUni + 1);
    SameQueueCalm(e, e, id);
    RegisterCalm(e, 0, id);
    var got := NewId(e.nextUni, e.isServer, Uni);
    if got.Some? {
      var e2 := RegisterSend(e1, got.value);
      RegisterCalm(e1, got.value, id);
      CalmTransitive(e, e1, e2, id);
      EnqueueCalm(e2, OpenUni(got.value), id);
      CalmTransitive(e, e2, Enqueue(e2, OpenUni(got.value)), id);
    }
  }

  lemma OpenBiCalm(e: Endpoint, queued: bool, credited: bool, id: StreamId)
    requires credited ==> NewId(e.nextBi, e.isServer, Bi) != Some(id)
    ensures Calm(e, DoOpenBi(e, queued, credited), id)
  {
    hide Calm, NewId, RegisterSend, RegisterRecv, Enqueue, SendSlotFree;
    var e1 := e.(nextBi := e.nextBi + 1);
    SameQueueCalm(e, e, id);
    RegisterCalm(e, 0, id);
    var got := NewId(e.nextBi, e.isServer, Bi);
    if got.Some? {
      var j := got.value;
      var e2 := RegisterSend(e1, j);
      var e3 := RegisterRecv(e2, j);
      var e4 := Enqueue(e3, OpenBi(j));
      EnqueueCalm(e1, OpenBi(j), id);
      CalmTransitive(e, e1, Enqueue(e1, OpenBi(j)), id);
      if !credited { return; }
      RegisterCalm(e1, j, id);
      RegisterCalm(e2, j, id);
      EnqueueCalm(e3, OpenBi(j), id);
      EnqueueCalm(e4, InitialCredit(e, j), id);
      CalmTransitive(e, e1, e2, id);
      CalmTransitive(e, e2, e3, id);
      CalmTransitive(e, e3, e4, id);
      CalmTransitive(e, e4, Enqueue(e4, InitialCredit(e, j)), id);
    }
  }

  lemma AdmitCalm(e: Endpoint, j: StreamId, queued: bool, room: bool, id: StreamId)
    requires j != id
    ensures Calm(e, Admit(e, j, queued, room), id)
  {
    hide Calm, ProtocolError, HandOver, HandOverViolation, Enqueue;
    ErrorCalm(e, 3, "too many open streams", room, id);
    ErrorCalm(e, 1, "duplicate stream open", room, id);
    var e1 := if queued then Enqueue(e, InitialCredit(e, j)) else e;
    SameQueueCalm(e, e, id);
    EnqueueCalm(e, InitialCredit(e, j), id);
    HandOverCalm(e1, j, id);
    CalmTransitive(e, e1, HandOver(e1, j), id);
    if HandOverViolation(e, j).Some? {
      ErrorCalm(e1, 3, HandOverViolation(e, j).value, room, id);
      CalmTransitive(e, e1, ProtocolError(e1, 3, HandOverViolation(e, j).value, room), id);
    }
  }

  lemma ReceiveOpenCalm(e: Endpoint, j: StreamId, dir: Dir, queued: bool, room: bool, id: StreamId)
    requires j != id
    ensures Calm(e, ReceiveOpen(e, j, dir, queued, room), id)
  {
    hide Calm, ProtocolError, Admit, OpenViolation, PassPeerFrontier;
    if OpenViolation(e, j, dir).Some? {
      ErrorCalm(e, 1, OpenViolation(e, j, dir).value, room, id);
    } else {
      PassCalm(e, j, id);
      AdmitCalm(PassPeerFrontier(e, j), j, queued, room, id);
      CalmTransitive(e, PassPeerFrontier(e, j), Admit(PassPeerFrontier(e, j), j, queued, room), id);
    }
  }

  /** Actions by which a credit for the stream may be queued or sent. */
  predicate Credits(e: Endpoint, a: Action, id: StreamId) {
    || (a.OpenBiStream? && a.credited && NewId(e.nextBi, e.isServer, Bi) == Some(id))
    || (a.Receive? && (a.frame == OpenUni(id) || a.frame == OpenBi(id)))
    || (a.Consume? && a.id == id) || a == SendCredit(id)
  }

  lemma QuietStep(e: Endpoint, a: Action, id: StreamId)
    requires !Credits(e, a, id) && !a.SendQueued? && !a.SendCredit?
    ensures Calm(e, Step(e, a), id)
  {
    hide Step, Calm, NewId;
    StepForm(e, a);
    match a
    case OpenUniStream(queued) => OpenUniCalm(e, queued, id);
    case OpenBiStream(queued, credited) => OpenBiCalm(e, queued, credited, id);
    case Consume(j, n) => OtherConsumeCalm(e, j, n, id);
    case Receive(f, queued, room) =>
      SameQueueCalm(e, e, id);
      ReceiveCalm(e, f, queued, room, id);
    case _ => StepCalm(e, a, id);
  }

  lemma ReceiveCalm(e: Endpoint, f: Frame, queued: bool, room: bool, id: StreamId)
    requires f != OpenUni(id) && f != OpenBi(id)
    ensures Calm(e, HandleFrame(e, f, queued, room), id)
  {
    hide Calm, ReceiveOpen;
    if f.OpenUni? {
      ReceiveOpenCalm(e, f.id, Uni, queued, room, id);
    } else if f.OpenBi? {
      ReceiveOpenCalm(e, f.id, Bi, queued, room, id);
    } else {
      hide HandleFrame;
      QuietReceive(e, f, queued, room, id);
    }
  }

  // ---- Whole runs of one endpoint ----

  /** A stream whose credits the action leaves alone. */
  function Bystander(e: Endpoint, a: Action): (id: StreamId)
    ensures !Credits(e, a, id)
  {
    match a
    case OpenBiStream(queued, credited) => if NewId(e.nextBi, e.isServer, Bi).Some?
        then NewId(e.nextBi, e.isServer, Bi).value + 1 else 0
    case Receive(f, _, _) => if f.OpenUni? || f.OpenBi? then f.id + 1 else 0
    case Consume(j, _) => j + 1
    case SendCredit(j) => j + 1
    case _ => 0
  }

  /** Every action but the sending of a grant only appends to the log. */
  lemma LogGrows(e: Endpoint, a: Action)
    requires !a.SendCredit?
    ensures Log(e) <= Log(Step(e, a))
  {
    if a.SendQueued? {
      assert Log(DoSendQueued(e)) == Log(e);
    } else {
      hide Step, Credits, NewId, Bystander, Silent;
      QuietStep(e, a, Bystander(e, a));
    }
  }

  lemma RemovalRises(id: StreamId, sent: seq<Frame>, c: Frame, queued: seq<Frame>)
    requires Rising(id, sent + [c] + queued)
    ensures Rising(id, sent + queued)
  {
    hide Announced;
    var all, rest, n := sent + [c] + queued, sent + queued, |sent|;
    forall i | 0 <= i < |rest| && IsCredit(rest[i], id) ensures Announced(id, rest[..i]) < rest[i].max {
      if i < n {
        assert all[i] == rest[i] && all[..i] == rest[..i];
      } else {
        var k := i - n;
        assert all[i + 1] == rest[i] && all[..i + 1] == sent + [c] + queued[..k] && rest[..i] == sent + queued[..k];
        Insertion(id, sent, c, queued[..k]);
      }
    }
  }

  /** Once the credits of a stream have fallen they stay out of order. */
  lemma FallStays(e: Endpoint, a: Action, id: StreamId)
    requires !Rising(id, Log(e))
    ensures !Rising(id, Log(Step(e, a)))
  {
    hide Rising, Step, Log;
    if a.SendCredit? {
      CreditFalls(e, a.id, id);
    } else {
      LogGrows(e, a);
      assert Log(Step(e, a))[..|Log(e)|] == Log(e);
      if Rising(id, Log(Step(e, a))) {
        RisingPrefix(id, Log(Step(e, a)), |Log(e)|);
      }
    }
  }

  lemma CreditFalls(e: Endpoint, j: StreamId, id: StreamId)
    requires !Rising(id, Log(e))
    ensures !Rising(id, Log(Step(e, SendCredit(j))))
  {
    hide Rising, Step;
    StepForm(e, SendCredit(j));
    if j in e.pendingCredit && Rising(id, Log(Step(e, SendCredit(j)))) {
      SendCreditLog(e, j);
      RemovalRises(id, e.sent, MaxStreamData(j, e.pendingCredit[j]), e.outbound);
    }
  }

  /** A pending grant is sent past a credit of its stream that is still queued. */
  predicate Overtakes(e: Endpoint, a: Action, id: StreamId) {
    a == SendCredit(id) && id in e.pendingCredit && CreditQueued(e, id)
  }

  lemma OvertakingFalls(e: Endpoint, id: StreamId)
    requires Ordered(e, id) && Overtakes(e, SendCredit(id), id)
    ensures !Rising(id, Log(Step(e, SendCredit(id))))
  {
    hide Rising, Ordered;
    var k :| 0 <= k < |e.outbound| && IsCredit(e.outbound[k], id);
    Overtaken(e, id, k);
    SendCreditLog(e, id);
  }

  predicate NeverOvertakes(server: bool, lim: Limits, schedule: seq<Action>, id: StreamId)
    decreases |schedule|
  {
    schedule == []
    || (&& NeverOvertakes(server, lim, schedule[..|schedule| - 1], id)
        && !Overtakes(Run(Fresh(server, lim), schedule[..|schedule| - 1]), schedule[|schedule| - 1], id))
  }

  /** For one endpoint over a whole run, whatever the peer sends: the credits that its log announces for a stream
      rise if and only if no grant was ever sent past a queued credit of that stream. */
  lemma {:induction false} RunOrder(server: bool, lim: Limits, schedule: seq<Action>, id: StreamId)
    requires Valid(lim)
    ensures Rising(id, Log(Run(Fresh(server, lim), schedule))) <==> NeverOvertakes(server, lim, schedule, id)
    ensures NeverOvertakes(server, lim, schedule, id) ==> Ordered(Run(Fresh(server, lim), schedule), id)
  {
    hide Step, Overtakes, AllOk, Valid, Ordered, Rising, Log;
    if schedule == [] {
      FreshOrdered(server, lim, id);
    } else {
      var front, a := schedule[..|schedule| - 1], schedule[|schedule| - 1];
      var e := Run(Fresh(server, lim), front);
      RunOrder(server, lim, front, id);
      if !NeverOvertakes(server, lim, front, id) {
        FallStays(e, a, id);
      } else {
        FreshKeeps(server, lim);
        RunKeeps(Fresh(server, lim), front);
        OrderNext(e, a, id);
      }
    }
  }

  lemma OrderNext(e: Endpoint, a: Action, id: StreamId)
    requires AllOk(e) && Ordered(e, id)
    ensures Rising(id, Log(Step(e, a))) <==> !Overtakes(e, a, id)
    ensures !Overtakes(e, a, id) ==> Ordered(Step(e, a), id)
  {
    hide Step, AllOk, Rising, QueuedIsFirst, Announced;
    StepOrder(e, a, id);
    if Overtakes(e, a, id) { OvertakingFalls(e, id); }
  }

  lemma FreshOrdered(server: bool, lim: Limits, id: StreamId)
    ensures Ordered(Run(Fresh(server, lim), []), id) && Rising(id, Log(Run(Fresh(server, lim), [])))
  {
  }
}
