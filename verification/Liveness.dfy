/** Credit liveness. A native session always announces the initial credit of a stream; a browser session may fail
    to queue it, for a stream it accepts and for one it opens, which it then gives up with the open on its way. Between
    any two endpoints, native or browser, this is the only thing that can starve a stream; and the second is the only
    thing by which honest endpoints end a session with code 2. */
module Liveness {
  import opened VarInts
  import opened Frames
  import opened SessionLimits
  import opened Endpoints
  import opened Views
  import opened EndpointInvariant
  import opened EndpointTheorems
  import opened Links
  import opened TwoParty
  import opened CreditOrder
  import opened Registry
  import opened LogNews

  predicate Opens(f: Frame, id: StreamId) {
    f == OpenUni(id) || f == OpenBi(id)
  }

  // ---- One endpoint, any peer ----

  /** A stream that can be received on has been announced credit. */
  predicate Served(e: Endpoint, id: StreamId) {
    id in e.streams ==> Announced(id, Log(e)) > 0
  }

  lemma AnnouncedGrows(e: Endpoint, a: Action, id: StreamId)
    ensures Announced(id, Log(e)) <= Announced(id, Log(Step(e, a)))
  {
    hide Announced, Step, Log;
    if a.SendCredit? {
      CreditAnnounced(e, a.id, id);
    } else {
      LogGrows(e, a);
      var n := |Log(e)|;
      var all := Log(Step(e, a));
      assert all == all[..n] + all[n..] && all[..n] == Log(e);
      Splits(id, all[..n], all[n..]);
    }
  }

  lemma CreditAnnounced(e: Endpoint, j: StreamId, id: StreamId)
    ensures Announced(id, Log(e)) <= Announced(id, Log(Step(e, SendCredit(j))))
  {
    hide Announced, Step;
    StepForm(e, SendCredit(j));
    if j in e.pendingCredit {
      SendCreditLog(e, j);
      Insertion(id, e.sent, MaxStreamData(j, e.pendingCredit[j]), e.outbound);
    }
  }

  lemma LastCreditCounts(id: StreamId, log: seq<Frame>, max: nat)
    requires |log| > 0 && log[|log| - 1] == MaxStreamData(id, max)
    ensures Announced(id, log) >= max
  {
    AnnouncedCovers(id, log, |log| - 1);
  }

  lemma OpenBiTells(e: Endpoint, queued: bool, credited: bool, id: StreamId)
    requires Valid(e.limits) && Served(e, id)
    ensures Served(DoOpenBi(e, queued, credited), id)
  {
    hide Announced, Valid, NewId;
    OpenBiStreams(e, queued, credited);
    if queued && credited && NextBi(e) == Some(id) {
      assert e.limits.initialStreamWindow > 0 by { WindowPositive(e.limits); }
      LastCreditCounts(id, Log(DoOpenBi(e, queued, credited)), e.limits.initialStreamWindow);
    } else if id in e.streams {
      hide DoOpenBi, Log;
      AnnouncedGrows(e, OpenBiStream(queued, credited), id);
    }
  }

  /** An open from the peer announces credit if the queue takes it. */
  lemma PeerOpenTells(e: Endpoint, id: StreamId, dir: Dir, room: bool)
    requires Valid(e.limits)
    ensures Served(ReceiveOpen(e, id, dir, true, room), id) || id in e.streams
  {
    hide Announced, Valid, OpenViolation, ProtocolError, Admit, PassPeerFrontier;
    if OpenViolation(e, id, dir).Some? {
      ErrorStreams(e, 1, OpenViolation(e, id, dir).value, room);
    } else {
      PassCalm(e, id, id);
      AdmitTells(PassPeerFrontier(e, id), id, room);
      PassedStreams(e, id);
    }
  }

  lemma AdmitTells(e: Endpoint, id: StreamId, room: bool)
    requires Valid(e.limits)
    ensures Served(Admit(e, id, true, room), id) || id in e.streams
  {
    hide Announced, Valid, ProtocolError, HandOver, HandOverViolation;
    WindowPositive(e.limits);
    var e1 := Enqueue(e, InitialCredit(e, id));
    ErrorStreams(e, 3, "too many open streams", room);
    ErrorStreams(e, 1, "duplicate stream open", room);
    if HandOverViolation(e, id).Some? {
      ErrorStreams(e1, 3, HandOverViolation(e, id).value, room);
    } else {
      HandOverCalm(e1, id, id);
      LastCreditCounts(id, Log(e1), e.limits.initialStreamWindow);
      HandOverLog(e1, id);
    }
  }

  lemma HandOverLog(e: Endpoint, id: StreamId)
    ensures Log(HandOver(e, id)) == Log(e)
  {
    hide DirOf;
  }

  /** Every step but a refused initial credit of an accepted stream keeps it so. */
  lemma StepServed(e: Endpoint, a: Action, id: StreamId)
    requires AllOk(e) && Served(e, id) && !(a.Receive? && !a.queued && Opens(a.frame, id))
    ensures Served(Step(e, a), id)
  {
    hide AllOk, Announced, Log, DoOpenBi, HandleFrame;
    AnnouncedGrows(e, a, id);
    ValidOf(e);
    if a.OpenBiStream? {
      OpenBiTells(e, a.queued, a.credited, id);
    } else if a.Receive? && IsOpen(a.frame) {
      if Opens(a.frame, id) { OpenFrameTells(e, a, id); } else { OtherOpenEnters(e, a, id); }
    } else {
      StepShrinks(e, a);
    }
  }

  lemma OpenFrameTells(e: Endpoint, a: Action, id: StreamId)
    requires Valid(e.limits) && Served(e, id) && a.Receive? && a.queued && Opens(a.frame, id)
    ensures Served(Step(e, a), id)
  {
    AnnouncedGrows(e, a, id);
    hide Announced, Log, ReceiveOpen, Valid;
    if !e.closed && id !in e.streams { PeerOpenTells(e, id, if a.frame.OpenUni? then Uni else Bi, a.room); }
  }

  lemma OtherOpenEnters(e: Endpoint, a: Action, id: StreamId)
    requires a.Receive? && IsOpen(a.frame) && !Opens(a.frame, id)
    ensures id in Step(e, a).streams ==> id in e.streams
  {
    hide ReceiveOpen;
    PeerOpenStreams(e, a.frame.id, if a.frame.OpenUni? then Uni else Bi, a.queued, a.room);
  }

  /** So has every stream whose bidirectional open is in the log. */
  predicate Told(e: Endpoint, id: StreamId) {
    Served(e, id) && (OpenBi(id) in Log(e) ==> Announced(id, Log(e)) > 0)
  }

  /** An own open that the queue takes without its credit. */
  predicate HalfOpens(e: Endpoint, a: Action, id: StreamId) {
    a.OpenBiStream? && a.queued && !a.credited && NextBi(e) == Some(id)
  }

  /** Every step but a refused initial credit keeps a stream told. */
  lemma StepTold(e: Endpoint, a: Action, id: StreamId)
    requires AllOk(e) && Told(e, id) && !(a.Receive? && !a.queued && Opens(a.frame, id)) && !HalfOpens(e, a, id)
    ensures Told(Step(e, a), id)
  {
    hide AllOk, Announced, Log, Step, NextBi;
    StepServed(e, a, id);
    AnnouncedGrows(e, a, id);
    StepNews(e, a, OpenBi(id));
    if OpenBi(id) in Log(Step(e, a)) && OpenBi(id) !in Log(e) { WholeOpenEnters(e, a, id); }
  }

  lemma WholeOpenEnters(e: Endpoint, a: Action, id: StreamId)
    requires a.OpenBiStream? && a.queued && a.credited && NextBi(e) == Some(id)
    ensures id in Step(e, a).streams
  {
    hide DoOpenBi, NextBi;
    OpenBiStreams(e, a.queued, a.credited);
  }

  lemma LoggedStays(e: Endpoint, a: Action, g: Frame)
    ensures g in Log(e) ==> g in Log(Step(e, a))
  {
    hide Step, Log;
    if a.SendCredit? {
      StepForm(e, a);
      CreditKeepsLog(e, a.id, g);
    } else {
      LogGrows(e, a);
    }
  }

  lemma CreditKeepsLog(e: Endpoint, j: StreamId, g: Frame)
    ensures g in Log(e) ==> g in Log(DoSendCredit(e, j))
  {
    if j in e.pendingCredit { SendCreditLog(e, j); }
  }

  // ---- A stream whose initial credit was refused ----

  /** A known stream for which no credit was announced and none is pending; an own one was given up halfway through
      its open. */
  predicate Mute(e: Endpoint, id: StreamId) {
    && Known(e, id) && Announced(id, Log(e)) == 0 && id !in e.pendingCredit
    && (Local(e, id) ==> DirOf(id).Bi? && OpenBi(id) in Log(e))
  }

  lemma CalmMute(e: Endpoint, e': Endpoint, id: StreamId)
    requires Announced(id, Log(e)) == 0 && id !in e.pendingCredit && Calm(e, e', id)
    ensures Announced(id, Log(e')) == 0 && id !in e'.pendingCredit
  {
    hide Announced, Silent;
    var fs := e'.outbound[|e.outbound|..];
    assert Log(e') == Log(e) + fs;
    SilentTail(id, Log(e), fs);
  }

  /** It stays so unless data of it is read. */
  lemma StepMute(e: Endpoint, a: Action, id: StreamId)
    requires Mute(e, id)
    requires a.Consume? && a.id == id && id in e.readers ==> e.readers[id].pending == []
    ensures Mute(Step(e, a), id)
  {
    hide Settles, Known, Announced, Log, Calm, DoConsume, DoSendQueued, DoSendCredit, HandleFrame, DoOpenBi;
    StepSettles(e, a, id);
    KnownStays(e, Step(e, a), id);
    LoggedStays(e, a, OpenBi(id));
    if a.SendQueued? {
      QueueMute(e);
    } else if a.SendCredit? {
      GrantMute(e, a.id, id);
    } else if a.Consume? && a.id == id {
      NothingToConsume(e, id, a.n);
    } else if Credits(e, a, id) {
      KnownOpen(e, a, id);
      CalmMute(e, Step(e, a), id);
    } else {
      hide Step;
      QuietStep(e, a, id);
      CalmMute(e, Step(e, a), id);
    }
  }

  lemma QueueMute(e: Endpoint)
    ensures Log(DoSendQueued(e)) == Log(e) && DoSendQueued(e).pendingCredit == e.pendingCredit
  {
  }

  lemma GrantMute(e: Endpoint, j: StreamId, id: StreamId)
    requires Announced(id, Log(e)) == 0 && id !in e.pendingCredit
    ensures Announced(id, Log(DoSendCredit(e, j))) == 0 && id !in DoSendCredit(e, j).pendingCredit
  {
    hide Announced;
    if j in e.pendingCredit {
      SendCreditLog(e, j);
      Insertion(id, e.sent, MaxStreamData(j, e.pendingCredit[j]), e.outbound);
    }
  }

  /** A known stream cannot be opened again, by either side. */
  lemma KnownOpen(e: Endpoint, a: Action, id: StreamId)
    requires Known(e, id) && Credits(e, a, id) && (a.OpenBiStream? || a.Receive?)
    ensures Calm(e, Step(e, a), id)
  {
    if a.OpenBiStream? {
      UnknownAllocation(e, Bi, id, id);
    } else {
      hide Calm, Known, Local, ProtocolError;
      SameQueueCalm(e, e, id);
      var dir := if a.frame.OpenUni? then Uni else Bi;
      var v := OpenViolation(e, id, dir);
      assert v.Some?;
      hide OpenViolation;
      ErrorCalm(e, 1, v.value, a.room, id);
    }
  }

  // ---- Two endpoints, native or browser ----

  /** In this move the side that faces a opens stream id, hands it over or ends, without queueing its initial
      credit. */
  predicate Refuses(s: System, m: Move, flipped: bool, id: StreamId) {
    var t := Facing(s, flipped);
    match m
    case Act(byA, action) => byA != flipped && HalfOpens(t.a, action, id)
    case Deliver(toA, queued, _) =>
      toA != flipped && !queued && !t.a.closed && t.seenByA < |t.b.sent| && Opens(t.b.sent[t.seenByA], id)
  }

  /** The queue refused the initial credit of the stream at some point of the run. */
  predicate Refused(la: Limits, lb: Limits, moves: seq<Move>, flipped: bool, id: StreamId)
    decreases |moves|
  {
    moves != []
    && (|| Refused(la, lb, moves[..|moves| - 1], flipped, id)
        || Refuses(Play(Start(la, lb), moves[..|moves| - 1]), moves[|moves| - 1], flipped, id))
  }

  /** Not an open that the queue takes without its credit. */
  predicate WholeOpen(m: Move) {
    m.Act? && m.action.OpenBiStream? && m.action.queued ==> m.action.credited
  }

  /** A move that waits until the queue takes the credit, as a native session does. */
  predicate Waits(m: Move) {
    (m.Deliver? ==> m.queued) && WholeOpen(m)
  }

  predicate Mine(m: Move, flipped: bool) {
    (if m.Act? then m.byA else m.toA) != flipped
  }

  /** A native session never refuses. */
  lemma {:induction false} NativeNeverRefuses(la: Limits, lb: Limits, moves: seq<Move>, flipped: bool, id: StreamId)
    requires forall i :: 0 <= i < |moves| && Mine(moves[i], flipped) ==> Waits(moves[i])
    ensures !Refused(la, lb, moves, flipped, id)
  {
    if moves != [] { NativeNeverRefuses(la, lb, moves[..|moves| - 1], flipped, id); }
  }

  lemma {:induction false} RefusedStays(la: Limits, lb: Limits, moves: seq<Move>, more: seq<Move>, flipped: bool,
      id: StreamId)
    requires Refused(la, lb, moves, flipped, id)
    ensures Refused(la, lb, moves + more, flipped, id)
  {
    hide Refuses, Play;
    if more == [] {
      assert moves + more == moves;
    } else {
      RefusedStays(la, lb, moves, more[..|more| - 1], flipped, id);
      assert (moves + more)[..|moves + more| - 1] == moves + more[..|more| - 1];
    }
  }

  /** What a move does to the side that faces a. */
  function Effect(t: System, m: Move, flipped: bool): (r: Option<Action>) {
    match m
    case Act(byA, action) => if byA == flipped || Inbound(action) then None else Some(action)
    case Deliver(toA, queued, room) =>
      if toA == flipped || t.a.closed || t.seenByA >= |t.b.sent| then None
      else Some(Receive(t.b.sent[t.seenByA], queued, room))
  }

  lemma Moved(s: System, m: Move, flipped: bool)
    ensures var t := Facing(s, flipped);
            Facing(Move1(s, m), flipped).a == if Effect(t, m, flipped).Some?
                then Step(t.a, Effect(t, m, flipped).value) else t.a
  {
    hide Step;
  }

  lemma MuteHasNoData(s: System, id: StreamId)
    requires Inv(s) && Mute(s.a, id)
    ensures ByA(s, id).bytes == [] && (id in s.a.readers ==> s.a.readers[id].pending == [])
  {
    hide Inv, Announced, Known, SeenView;
    assert Shape(s) by { ShapeOf(s); }
    if ByA(s, id).bytes != [] {
      DataMeansCredit(s, id);
      Splits(id, s.a.sent, s.a.outbound);
    }
    if id in s.a.readers && s.a.readers[id].pending != [] { ReadMeansBytes(s, id); }
  }

  /** A refused open leaves its stream mute. */
  lemma RefusalMutes(s: System, room: bool, id: StreamId)
    requires Inv(s) && !s.a.closed && s.seenByA < |s.b.sent| && Opens(s.b.sent[s.seenByA], id)
    ensures Mute(Step(s.a, Receive(s.b.sent[s.seenByA], false, room)), id)
  {
    hide Inv, Mute, ReceiveOpen, OpenViolation, Unused, EndOf, SentView;
    var f := s.b.sent[s.seenByA];
    var dir := if f.OpenUni? then Uni else Bi;
    OpenIsNew(s, id, dir);
    OpenMutes(s.a, id, dir, room);
  }

  /** An open given up halfway leaves its stream mute. */
  lemma HalfMutes(e: Endpoint, a: Action, id: StreamId)
    requires AllOk(e) && HalfOpens(e, a, id)
    ensures Mute(Step(e, a), id)
  {
    hide AllOk, Announced, Known, Local, DirOf, ByServer, Counter, NewId, Enqueue, Log, Calm, SendSlotFree;
    var e1 := e.(nextBi := e.nextBi + 1);
    AllocatedIsNew(e, id);
    RegisterCalm(e, 0, id);
    CalmMute(e, e1, id);
    EnqueueCalm(e1, OpenBi(id), id);
    CalmMute(e1, Enqueue(e1, OpenBi(id)), id);
    HalfOpenLogged(e1, id);
    HalfOpenForm(e, a, id);
  }

  lemma AllocatedIsNew(e: Endpoint, id: StreamId)
    requires AllOk(e) && NewId(e.nextBi, e.isServer, Bi) == Some(id)
    ensures DirOf(id).Bi? && Local(e, id) && Known(e.(nextBi := e.nextBi + 1), id)
    ensures Announced(id, Log(e)) == 0 && id !in e.pendingCredit
  {
    hide AllOk, Announced, Log;
    IdBijection(e.nextBi, e.isServer, Bi, id);
    StreamOf(e, id);
    UnknownUnheard(e, id);
  }

  lemma UnknownUnheard(e: Endpoint, id: StreamId)
    requires StreamOk(e, id) && !Known(e, id)
    ensures Announced(id, Log(e)) == 0 && id !in e.pendingCredit
  {
    hide Fold, Known, Announced, FlowInv, ReaderInv, StreamInv, CanSend;
    FoldShaped(id, e.isServer, Log(e));
    EndRole(e, id);
    UnheardOf(e, id);
  }

  lemma HalfOpenLogged(e: Endpoint, id: StreamId)
    ensures OpenBi(id) in Log(Enqueue(e, OpenBi(id)))
    ensures Known(Enqueue(e, OpenBi(id)), id) == Known(e, id) && Local(Enqueue(e, OpenBi(id)), id) == Local(e, id)
  {
    hide Known, Local;
    SameFrontiers(e, Enqueue(e, OpenBi(id)), id);
  }

  lemma HalfOpenForm(e: Endpoint, a: Action, id: StreamId)
    requires HalfOpens(e, a, id)
    ensures Step(e, a) == Enqueue(e.(nextBi := e.nextBi + 1), OpenBi(id))
  {
    hide NewId, Enqueue, SendSlotFree;
  }

  lemma OpenMutes(e: Endpoint, id: StreamId, dir: Dir, room: bool)
    requires OpenViolation(e, id, dir).None? && Unused(EndOf(e, id), SentView(e, id))
    ensures Mute(ReceiveOpen(e, id, dir, false, room), id)
  {
    var e1 := PassPeerFrontier(e, id);
    assert Known(e1, id) by {
      hide EndOf, SentView;
      UnknownPasses(e, id);
    }
    UnheardOf(e, id);
    hide Announced, Log, Known, Calm, Admit, PassPeerFrontier, OpenViolation, ReceiveOpen;
    PassCalm(e, id, id);
    CalmMute(e, e1, id);
    UntoldCalm(e1, id, room);
    CalmMute(e1, Admit(e1, id, false, room), id);
    AdmitKnown(e1, id, room);
    ReceiveIsAdmit(e, id, dir, room);
  }

  lemma ReceiveIsAdmit(e: Endpoint, id: StreamId, dir: Dir, room: bool)
    requires OpenViolation(e, id, dir).None?
    ensures ReceiveOpen(e, id, dir, false, room) == Admit(PassPeerFrontier(e, id), id, false, room)
  {
    hide OpenViolation, Admit, PassPeerFrontier;
  }

  lemma OpenIsNew(s: System, id: StreamId, dir: Dir)
    requires Inv(s) && s.seenByA < |s.b.sent| && s.b.sent[s.seenByA] == if dir.Uni? then OpenUni(id) else OpenBi(id)
    ensures OpenViolation(s.a, id, dir).None? && Unused(EndOf(s.a, id), SentView(s.a, id))
  {
    NextFramePlaced(s, id);
    LinkOf(s, id);
    hide Inv, LinkOk, SeenView, OpenViolation, EndOf, SentView, Shaped;
    OpenPlaced(s.a, id, dir, ByA(s, id), ByA(Flip(s), id));
  }

  lemma UnheardOf(e: Endpoint, id: StreamId)
    requires Unused(EndOf(e, id), SentView(e, id))
    ensures Announced(id, Log(e)) == 0 && id !in e.pendingCredit
  {
    hide Fold, Known, Local, Announced;
    ViewMeans(id, e.isServer, Log(e));
  }

  lemma UnknownPasses(e: Endpoint, id: StreamId)
    ensures Known(PassPeerFrontier(e, id), id) || Local(e, id)
  {
  }

  lemma UntoldCalm(e: Endpoint, id: StreamId, room: bool)
    ensures Calm(e, Admit(e, id, false, room), id)
  {
    hide Calm, ProtocolError, HandOver, HandOverViolation;
    ErrorCalm(e, 3, "too many open streams", room, id);
    ErrorCalm(e, 1, "duplicate stream open", room, id);
    HandOverCalm(e, id, id);
    if HandOverViolation(e, id).Some? { ErrorCalm(e, 3, HandOverViolation(e, id).value, room, id); }
  }

  lemma AdmitKnown(e: Endpoint, id: StreamId, room: bool)
    requires Known(e, id)
    ensures Known(Admit(e, id, false, room), id)
  {
    hide Known, ProtocolError, HandOver, HandOverViolation;
    FrontiersStay(e, id, 3, "too many open streams", room);
    FrontiersStay(e, id, 1, "duplicate stream open", room);
    if HandOverViolation(e, id).Some? { FrontiersStay(e, id, 3, HandOverViolation(e, id).value, room); }
    FrontiersStay(e, id, 0, "", room);
  }

  lemma FrontiersStay(e: Endpoint, id: StreamId, code: nat, reason: string, room: bool)
    ensures Known(ProtocolError(e, code, reason, room), id) == Known(e, id) == Known(HandOver(e, id), id)
  {
    hide Known, Ascii, DirOf;
    SameFrontiers(e, ProtocolError(e, code, reason, room), id);
    SameFrontiers(e, HandOver(e, id), id);
  }

  /** One more move, seen from the side that faces a. */
  lemma StarvationStep(s: System, m: Move, flipped: bool, id: StreamId, refused: bool)
    requires Inv(Facing(s, flipped))
    requires var e := Facing(s, flipped).a; if refused then Mute(e, id) else Told(e, id)
    ensures var e' := Facing(Move1(s, m), flipped).a;
            if refused || Refuses(s, m, flipped, id) then Mute(e', id) else Told(e', id)
  {
    hide Inv, Mute, Told, Step, Move1, Facing;
    var t := Facing(s, flipped);
    Moved(s, m, flipped);
    var eff := Effect(t, m, flipped);
    if refused {
      if eff.Some? {
        MuteHasNoData(t, id);
        StepMute(t.a, eff.value, id);
      }
    } else if Refuses(s, m, flipped, id) {
      if m.Act? {
        OkOf(t);
        hide AllOk;
        HalfMutes(t.a, m.action, id);
      } else {
        RefusalMutes(t, m.room, id);
      }
    } else if eff.Some? {
      OkOf(t);
      hide AllOk;
      StepTold(t.a, eff.value, id);
    }
  }

  /** In every run, a stream that can be received on was announced credit unless its queue refused it, and after a
      refusal it is never announced any. */
  lemma {:induction false} StarvedOrTold(la: Limits, lb: Limits, moves: seq<Move>, flipped: bool, id: StreamId)
    requires Valid(la) && Valid(lb)
    ensures var e := Facing(Play(Start(la, lb), moves), flipped).a;
            if Refused(la, lb, moves, flipped, id) then Mute(e, id) else Told(e, id)
  {
    hide Mute, Inv, Move1, Refuses, Facing, Valid, Told;
    if moves == [] {
      StartTold(la, lb, flipped, id);
    } else {
      var front := moves[..|moves| - 1];
      StarvedOrTold(la, lb, front, flipped, id);
      Reached(la, lb, front, flipped);
      StarvationStep(Play(Start(la, lb), front), moves[|moves| - 1], flipped, id, Refused(la, lb, front, flipped, id));
    }
  }

  lemma StartTold(la: Limits, lb: Limits, flipped: bool, id: StreamId)
    ensures Told(Facing(Start(la, lb), flipped).a, id)
  {
  }

  // ---- The theorems ----

  /** No grant is lost: once the initial credit of a live, unstopped stream was queued, the limit in force is the
      largest of the credits logged and the one pending; and it is always ahead of what was consumed. */
  lemma NewestGrant(la: Limits, lb: Limits, moves: seq<Move>, flipped: bool, id: StreamId)
    requires Valid(la) && Valid(lb)
    ensures var s := Facing(Play(Start(la, lb), moves), flipped);
            id in s.a.streams && !s.a.streams[id].stopped && id in s.a.readers ==>
              && (!Refused(la, lb, moves, flipped, id) ==>
                    s.a.streams[id].maxData
                    == Max(Announced(id, Log(s.a)), if id in s.a.pendingCredit then s.a.pendingCredit[id] else 0))
              && (s.a.readers[id].consumed + s.a.limits.windowUpdateThreshold <= MAX ==>
                    s.a.readers[id].consumed < s.a.streams[id].maxData)
  {
    hide Play, Facing, Announced, Valid, Inv, Refused, Log, Mute;
    Reached(la, lb, moves, flipped);
    StarvedOrTold(la, lb, moves, flipped, id);
    var s := Facing(Play(Start(la, lb), moves), flipped);
    if id in s.a.streams && !s.a.streams[id].stopped && id in s.a.readers { GrantHere(s, id); }
  }

  /** Nothing of the stream is in transit, queued, unread or pending. */
  predicate Drained(s: System, id: StreamId) {
    && id in s.a.streams && !s.a.streams[id].stopped && id in s.a.readers
    && id in s.b.sendFlows && s.b.sendFlows[id].reserved == []
    && Carried(id, ToA(s)) == [] && s.a.readers[id].pending == [] && Queued(s.a.readers[id].queue) == []
    && Announced(id, ToA(Flip(s))) == 0 && id !in s.a.pendingCredit
  }

  /** No credit deadlock: when all of a live, unstopped stream is delivered and read and no credit is on its way,
      the sender has credit left if and only if the initial credit was queued. */
  lemma NoCreditDeadlock(la: Limits, lb: Limits, moves: seq<Move>, flipped: bool, id: StreamId)
    requires Valid(la) && Valid(lb) && Drained(Facing(Play(Start(la, lb), moves), flipped), id)
    requires Facing(Play(Start(la, lb), moves), flipped).a.readers[id].consumed
             + Ours(la, lb, flipped).windowUpdateThreshold <= MAX
    ensures var flow := Facing(Play(Start(la, lb), moves), flipped).b.sendFlows[id];
            && (flow.sentData < flow.maxData <==> !Refused(la, lb, moves, flipped, id))
            && (Refused(la, lb, moves, flipped, id) ==> flow.sentData == flow.maxData == 0)
  {
    hide Play, Facing, Carried, Announced, Valid, Inv, Refused;
    Reached(la, lb, moves, flipped);
    StarvedOrTold(la, lb, moves, flipped, id);
    var s := Facing(Play(Start(la, lb), moves), flipped);
    SafeHere(s, id);
    GrantHere(s, id);
    assert Shape(s) by { ShapeOf(s); }
    FlipInv(s);
    TransitMeans(Flip(s), id);
    DrainedHere(s, id);
  }

  /** A refusal starves its stream for good: in every continuation the sender's limit stays zero and no byte of the
      stream is ever queued. */
  lemma StarvedForever(la: Limits, lb: Limits, moves: seq<Move>, more: seq<Move>, flipped: bool, id: StreamId)
    requires Valid(la) && Valid(lb) && Refused(la, lb, moves, flipped, id)
    ensures var s := Facing(Play(Start(la, lb), moves + more), flipped);
            && Carried(id, Log(s.b)) == [] && Announced(id, Log(s.a)) == 0
            && (id in s.b.sendFlows ==> s.b.sendFlows[id].sentData == s.b.sendFlows[id].maxData == 0)
  {
    hide Play, Facing, Valid, Refused;
    RefusedStays(la, lb, moves, more, flipped, id);
    Reached(la, lb, moves + more, flipped);
    StarvedOrTold(la, lb, moves + more, flipped, id);
    var s := Facing(Play(Start(la, lb), moves + more), flipped);
    StarvedHere(s, id);
  }

  lemma StarvedHere(s: System, id: StreamId)
    requires Inv(s) && Mute(s.a, id)
    ensures Carried(id, Log(s.b)) == [] && Announced(id, Log(s.a)) == 0
    ensures id in s.b.sendFlows ==> s.b.sendFlows[id].sentData == s.b.sendFlows[id].maxData == 0
  {
    hide Carried, Announced, Inv, Known;
    assert Shape(s) by { ShapeOf(s); }
    SafeHere(s, id);
    FlipInv(s);
    TransitMeans(s, id);
    TransitMeans(Flip(s), id);
    PeerGuarantees(s, id);
    var sent := s.a.sent;
    Splits(id, sent, s.a.outbound);
    Splits(id, sent[..s.seenByB], sent[s.seenByB..]);
    assert sent == sent[..s.seenByB] + sent[s.seenByB..];
  }

  // ---- The end of the varint range ----

  /** Reading n bytes brings a threshold's worth of new credit. */
  predicate Due(e: Endpoint, id: StreamId, n: nat)
    requires id in e.readers
  {
    var rd := e.readers[id];
    rd.granted + e.limits.windowUpdateThreshold <= Target(e.limits.initialStreamWindow, rd.consumed + n)
  }

  lemma LiveReader(e: Endpoint, id: StreamId)
    requires AllOk(e) && id in e.streams && !e.streams[id].stopped
    ensures id in e.readers
    ensures var rd := e.readers[id];
            && rd.consumed + |rd.pending| <= rd.granted == e.streams[id].maxData <= MAX && !rd.finished && !rd.stopSent
            && rd.consumed + |rd.pending| <= MAX
  {
    hide Fold, Known, Local, FlowInv, NoFin, CanSend, Ready, FinOnlyLast, Queued, Target;
    assert StreamOk(e, id);
  }

  /** Reading raises the limit of a live, unstopped stream exactly when a threshold's worth is due, or when it ends the
      session. */
  lemma GrantIff(e: Endpoint, id: StreamId, n: nat)
    requires AllOk(e) && id in e.streams && !e.streams[id].stopped && id in e.readers
             && 0 < n <= |e.readers[id].pending|
    ensures var r := DoConsume(e, id, n);
            if Due(e, id, n)
            then r.closed || (id in r.streams && r.streams[id].maxData > e.streams[id].maxData && id in r.pendingCredit)
            else r.streams == e.streams && r.pendingCredit == e.pendingCredit && r.closed == e.closed
  {
    LiveReader(e, id);
    ValidOf(e);
    var rd := e.readers[id];
    assert SaturatingAdd(rd.consumed, n) == rd.consumed + n;
    hide AllOk, Target, QueueCredit, SaturatingAdd;
    if Due(e, id, n) {
      var target := Target(e.limits.initialStreamWindow, rd.consumed + n);
      var e1 := Raised(e, id, Handed(rd, n).(granted := target));
      QueueCreditEffect(e1, id, target, id);
      GrantedLog(e1, id, target);
    }
  }

  /** In the last threshold's worth of the varint range nothing more is ever granted: the limit in force is final. */
  lemma LastGrant(e: Endpoint, id: StreamId, n: nat)
    requires AllOk(e) && id in e.readers && 0 < n <= |e.readers[id].pending|
    requires e.readers[id].consumed + n + e.limits.windowUpdateThreshold > MAX
    ensures var r := DoConsume(e, id, n);
            id in e.streams && !e.streams[id].stopped ==> r.streams == e.streams && r.pendingCredit == e.pendingCredit
  {
    if id in e.streams && !e.streams[id].stopped {
      LiveReader(e, id);
      assert Target(e.limits.initialStreamWindow, e.readers[id].consumed + n) <= MAX;
      hide Target, AllOk, DoConsume;
      GrantIff(e, id, n);
    }
  }

  // ---- Streams given up halfway through their open ----

  lemma {:induction false} BegunMeans(id: StreamId, server: bool, log: seq<Frame>)
    requires DirOf(id).Bi? && ByServer(id) == server
    ensures Fold(id, server, log).begun <==> OpenBi(id) in log
  {
    hide Observe;
    if log != [] {
      var front, last := log[..|log| - 1], log[|log| - 1];
      BegunMeans(id, server, front);
      ObserveBegun(id, server, Fold(id, server, front), last);
      assert log == front + [last];
    }
  }

  lemma ObserveBegun(id: StreamId, server: bool, v: View, f: Frame)
    requires DirOf(id).Bi? && ByServer(id) == server
    ensures Observe(id, server, v, f).begun <==> v.begun || f == OpenBi(id)
  {
    hide Ready, CanSend, CanReceive, Counter;
  }

  lemma HalfMeans(e: Endpoint, id: StreamId)
    ensures Half(e, id) <==> Local(e, id) && DirOf(id).Bi? && OpenBi(id) in Log(e) && Announced(id, Log(e)) == 0
  {
    hide Fold, Announced, Log, DirOf, ByServer;
    if Local(e, id) && DirOf(id).Bi? {
      BegunMeans(id, e.isServer, Log(e));
      ViewMeans(id, e.isServer, Log(e));
    }
  }

  /** In every run, the streams a side has given up halfway through their open are its own streams whose credit its
      queue refused. */
  lemma HalfIff(la: Limits, lb: Limits, moves: seq<Move>, flipped: bool, id: StreamId)
    requires Valid(la) && Valid(lb)
    ensures var e := Facing(Play(Start(la, lb), moves), flipped).a;
            Half(e, id) <==> Local(e, id) && Refused(la, lb, moves, flipped, id)
  {
    hide Play, Facing, Half, Announced, Log, Refused, Local, Known, Valid, Served;
    StarvedOrTold(la, lb, moves, flipped, id);
    HalfMeans(Facing(Play(Start(la, lb), moves), flipped).a, id);
  }

  /** Every own bidirectional open of the side finds room for both its frames, or for neither. */
  predicate RoomForBoth(moves: seq<Move>, flipped: bool) {
    forall i :: 0 <= i < |moves| && Mine(moves[i], flipped) ==> WholeOpen(moves[i])
  }

  lemma {:induction false} OnlyRemoteRefused(la: Limits, lb: Limits, moves: seq<Move>, flipped: bool, id: StreamId)
    requires Valid(la) && Valid(lb) && RoomForBoth(moves, flipped) && Refused(la, lb, moves, flipped, id)
    ensures !Local(Facing(Play(Start(la, lb), moves), flipped).a, id)
  {
    hide Inv, Valid, Local, Step, OpenViolation, EndOf, SentView, Unused;
    var front, m := moves[..|moves| - 1], moves[|moves| - 1];
    var s := Play(Start(la, lb), front);
    SideStays(s, m, flipped, id);
    if Refused(la, lb, front, flipped, id) {
      OnlyRemoteRefused(la, lb, front, flipped, id);
    } else {
      Reached(la, lb, front, flipped);
      var t := Facing(s, flipped);
      hide Play;
      OpenIsRemote(t, id, if t.b.sent[t.seenByA].OpenUni? then Uni else Bi);
    }
  }

  lemma SideStays(s: System, m: Move, flipped: bool, id: StreamId)
    ensures Local(Facing(Move1(s, m), flipped).a, id) == Local(Facing(s, flipped).a, id)
  {
    hide Step, ByServer;
  }

  lemma OpenIsRemote(s: System, id: StreamId, dir: Dir)
    requires Inv(s) && s.seenByA < |s.b.sent| && s.b.sent[s.seenByA] == if dir.Uni? then OpenUni(id) else OpenBi(id)
    ensures !Local(s.a, id)
  {
    hide Inv, EndOf, SentView, Local, Known, Unused;
    OpenIsNew(s, id, dir);
  }

  /** A side whose opens find room for both their frames is never ended by code 1, and by code 2 only for a data frame
      larger than it takes. */
  lemma {:induction false} WholeOpensAreSafe(la: Limits, lb: Limits, moves: seq<Move>, flipped: bool)
    requires Valid(la) && Valid(lb) && RoomForBoth(moves, flipped)
    ensures !Undone(la, lb, moves, flipped)
    ensures var error := Facing(Play(Start(la, lb), moves), flipped).a.error;
            error in {None, Some(2), Some(3)} && (error == Some(2) <==> Strained(la, lb, moves, flipped))
  {
    hide Valid, Half, Refused;
    NoProtocolErrors(la, lb, moves, flipped);
    if moves != [] {
      var front, m := moves[..|moves| - 1], moves[|moves| - 1];
      WholeOpensAreSafe(la, lb, front, flipped);
      var t := Facing(Play(Start(la, lb), front), flipped);
      hide Play;
      if Undoes(Play(Start(la, lb), front), m, flipped) {
        var id := t.b.sent[t.seenByA].id;
        HalfIff(la, lb, front, flipped, id);
        OnlyRemoteRefused(la, lb, front, flipped, id);
      }
    }
  }

  /** A side that was ended by such a FIN has such a stream, also if it knows of none. */
  lemma {:induction false} UndoneLeavesHalf(la: Limits, lb: Limits, moves: seq<Move>, flipped: bool)
      returns (id: StreamId)
    requires Valid(la) && Valid(lb) && Undone(la, lb, moves, flipped)
    ensures Half(Facing(Play(Start(la, lb), moves), flipped).a, id)
  {
    hide Valid, Half, Refused, Local;
    var front, m := moves[..|moves| - 1], moves[|moves| - 1];
    var t := Facing(Play(Start(la, lb), front), flipped);
    if Undone(la, lb, front, flipped) {
      id := UndoneLeavesHalf(la, lb, front, flipped);
    } else {
      id := t.b.sent[t.seenByA].id;
    }
    HalfIff(la, lb, front, flipped, id);
    RefusedStays(la, lb, front, [m], flipped, id);
    assert front + [m] == moves;
    SideStays(Play(Start(la, lb), front), m, flipped, id);
    HalfIff(la, lb, moves, flipped, id);
  }
}
