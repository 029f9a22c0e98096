/** Closing frames against the batch limit: the longest reason a session gives for closing, and a run that gives it. */
module CloseFrames {
  import opened VarInts
  import opened Frames
  import opened SessionLimits
  import opened Endpoints
  import opened Views
  import opened EndpointInvariant
  import opened EndpointTheorems
  import opened RegistryRuns
  import opened WriterLoop
  import opened Transmission

  // ---- Filling the send registry ----

  predicate Sending(e: Endpoint) {
    !e.closed && e.streams == map[] && e.acceptBi == []
  }

  /** r is e with a send flow for stream j and nothing else changed that matters here. */
  predicate Flowing(e: Endpoint, r: Endpoint, j: StreamId) {
    && j !in e.sendFlows && r.sendFlows == e.sendFlows[j := SendFlow(0, 0, [], false)] && r.limits == e.limits
        && Sending(r)
  }

  function LocalUniId(e: Endpoint): (j: StreamId) {
    4 * e.nextUni + 2 + (if e.isServer then 1 else 0)
  }

  lemma LocalIsNew(e: Endpoint, dir: Dir, j: StreamId)
    requires AllOk(e) && NewId(Frontier(e, true, dir), e.isServer, dir) == Some(j)
    ensures j !in e.sendFlows && j !in e.streams
  {
    hide AllOk, Known, NewId;
    if Known(e, j) { UnknownAllocation(e, dir, j, j); }
    UnknownIsNew(e, j);
  }

  lemma LocalUniFlow(e: Endpoint)
    requires AllOk(e) && Sending(e) && e.nextUni < IDS && |e.sendFlows| < e.limits.maxOpenStreams
    ensures var r := Run(e, [OpenUniStream(true)]);
            && Flowing(e, r, LocalUniId(e))
            && r.nextUni == e.nextUni + 1 && r.nextBi == e.nextBi && r.nextPeerBi == e.nextPeerBi
  {
    hide AllOk, Run, NewId, LocalUniId, Step, DoOpenUni, Flowing, Sending;
    NextLocalUni(e);
    LocalIsNew(e, Uni, LocalUniId(e));
    RunOne(e, OpenUniStream(true));
    StepForm(e, OpenUniStream(true));
    LocalUniEffect(e, LocalUniId(e));
  }

  lemma NextLocalUni(e: Endpoint)
    requires e.nextUni < IDS
    ensures NewId(e.nextUni, e.isServer, Uni) == Some(LocalUniId(e))
  {
    IdBijection(e.nextUni, e.isServer, Uni, LocalUniId(e));
  }

  lemma LocalUniEffect(e: Endpoint, j: StreamId)
    requires Sending(e) && |e.sendFlows| < e.limits.maxOpenStreams && j !in e.sendFlows
    requires NewId(e.nextUni, e.isServer, Uni) == Some(j)
    ensures var r := DoOpenUni(e, true);
            Flowing(e, r, j) && r.nextUni == e.nextUni + 1 && r.nextBi == e.nextBi && r.nextPeerBi == e.nextPeerBi
  {
    hide NewId;
  }

  /** Open a stream of one's own and let the peer reset its direction. */
  lemma LocalBiFlow(e: Endpoint)
    requires AllOk(e) && Sending(e) && e.nextBi < IDS && |e.sendFlows| < e.limits.maxOpenStreams
    ensures var r := Run(e, [OpenBiStream(true, true), Receive(ResetStream(LocalBiId(e), 0), true, true)]);
            && Flowing(e, r, LocalBiId(e))
            && r.nextUni == e.nextUni && r.nextBi == e.nextBi + 1 && r.nextPeerBi == e.nextPeerBi
  {
    hide AllOk, Run, DoOpenBi, HandleFrame, Flowing, DirOf, ByServer, Counter;
    var j := LocalBiId(e);
    IdBijection(e.nextBi, e.isServer, Bi, j);
    hide NewId, LocalBiId;
    LocalIsNew(e, Bi, j);
    RunTwo(e, OpenBiStream(true, true), Receive(ResetStream(j, 0), true, true));
    LocalBiFlowEffect(e, j);
  }

  lemma LocalBiFlowEffect(e: Endpoint, j: StreamId)
    requires Sending(e) && |e.sendFlows| < e.limits.maxOpenStreams && NewId(e.nextBi, e.isServer, Bi) == Some(j)
             && j !in e.sendFlows
    ensures var e1 := DoOpenBi(e, true, true);
            var r := HandleFrame(e1, ResetStream(j, 0), true, true);
            && !e1.closed && Flowing(e, r, j)
            && r.nextUni == e.nextUni && r.nextBi == e.nextBi + 1 && r.nextPeerBi == e.nextPeerBi
  {
    hide NewId;
    assert map[][j := RecvState(false, 0, e.limits.initialStreamWindow)] - {j} == map[];
  }

  /** Accept a stream of the peer and let the peer reset its direction. */
  lemma PeerBiFlow(e: Endpoint)
    requires AllOk(e) && Sending(e) && e.nextPeerBi < IDS && |e.sendFlows| < e.limits.maxOpenStreams
    ensures var r := Run(e, [Receive(OpenBi(PeerBiId(e)), true, true), AcceptBi,
              Receive(ResetStream(PeerBiId(e), 0), true, true)]);
            && Flowing(e, r, PeerBiId(e))
            && r.nextUni == e.nextUni && r.nextBi == e.nextBi && r.nextPeerBi == e.nextPeerBi + 1
  {
    hide AllOk, Run, ReceiveOpen, HandOver, PassPeerFrontier, DoAcceptBi, Enqueue, Flowing, PeerBiId, DirOf, Counter;
    var j := PeerBiId(e);
    PeerBiPlaced(e, j);
    ValidOf(e);
    RunThree(e, Receive(OpenBi(j), true, true), AcceptBi, Receive(ResetStream(j, 0), true, true));
    PlacedBi(e, j);
    PeerBiFlowEffect(e, j);
    PeerBiSteps(e, j);
  }

  lemma PeerBiPlaced(e: Endpoint, j: StreamId)
    requires AllOk(e) && e.nextPeerBi < IDS && j == PeerBiId(e)
    ensures OpenViolation(e, j, Bi).None? && j !in e.streams && j !in e.sendFlows && DirOf(j) == Bi
            && Counter(j) == e.nextPeerBi
  {
    hide AllOk;
    IdBijection(e.nextPeerBi, !e.isServer, Bi, j);
    UnknownIsNew(e, j);
  }

  lemma PeerBiSteps(e: Endpoint, j: StreamId)
    requires !e.closed && !DoAcceptBi(ReceiveOpen(e, j, Bi, true, true)).closed
    ensures Step(Step(Step(e, Receive(OpenBi(j), true, true)), AcceptBi), Receive(ResetStream(j, 0), true, true))
            == HandleFrame(DoAcceptBi(ReceiveOpen(e, j, Bi, true, true)), ResetStream(j, 0), true, true)
  {
    hide ReceiveOpen, DoAcceptBi, ProtocolError, IsRetiredDirection, RemoveRecv;
  }

  lemma PlacedBi(e: Endpoint, j: StreamId)
    requires Valid(e.limits) && Sending(e) && |e.sendFlows| < e.limits.maxOpenStreams && j !in e.sendFlows
             && DirOf(j) == Bi
    requires OpenViolation(e, j, Bi).None?
    ensures ReceiveOpen(e, j, Bi, true, true) == HandOver(Enqueue(PassPeerFrontier(e, j), InitialCredit(e, j)), j)
  {
    hide OpenViolation, ProtocolError, HandOver, DirOf, Counter;
  }

  lemma PeerBiFlowEffect(e: Endpoint, j: StreamId)
    requires Sending(e) && j !in e.sendFlows && DirOf(j) == Bi
    ensures var e1 := DoAcceptBi(HandOver(Enqueue(PassPeerFrontier(e, j), InitialCredit(e, j)), j));
            var r := HandleFrame(e1, ResetStream(j, 0), true, true);
            && !e1.closed && Flowing(e, r, j)
            && r.nextUni == e.nextUni && r.nextBi == e.nextBi && r.nextPeerBi == Counter(j) + 1
  {
    hide DirOf, Counter;
    assert ([] + [j])[1..] == [];
    assert map[][j := RecvState(false, 0, e.limits.initialStreamWindow)] - {j} == map[];
  }

  /** n send flows and no receive state: own unidirectional streams first, then own and the peer's bidirectional
      ones. */
  predicate FlowsFilled(e: Endpoint, n: nat) {
    && Sending(e) && |e.sendFlows| == n
    && e.nextUni == Min(n, IDS)
    && e.nextBi == (if n < IDS then 0 else Min(n - IDS, IDS))
    && e.nextPeerBi == (if n < 2 * IDS then 0 else n - 2 * IDS)
  }

  function FlowFiller(e: Endpoint, n: nat): (more: seq<Action>) {
    if n < IDS then [OpenUniStream(true)]
    else if n < 2 * IDS then [OpenBiStream(true, true), Receive(ResetStream(LocalBiId(e), 0), true, true)]
    else [Receive(OpenBi(PeerBiId(e)), true, true), AcceptBi, Receive(ResetStream(PeerBiId(e), 0), true, true)]
  }

  lemma FlowFillerDecodable(e: Endpoint, n: nat)
    requires FlowsFilled(e, n) && n < 3 * IDS - 1
    ensures AllDecodable(FlowFiller(e, n))
  {
  }

  lemma FillOneFlow(e: Endpoint, n: nat)
    requires AllOk(e) && FlowsFilled(e, n) && n < e.limits.maxOpenStreams && n < 3 * IDS - 1
    ensures FlowsFilled(Run(e, FlowFiller(e, n)), n + 1)
  {
    hide AllOk, Run, LocalUniId, LocalBiId, PeerBiId;
    var j := if n < IDS then LocalUniId(e) else if n < 2 * IDS then LocalBiId(e) else PeerBiId(e);
    if n < IDS {
      LocalUniFlow(e);
    } else if n < 2 * IDS {
      LocalBiFlow(e);
    } else {
      PeerBiFlow(e);
    }
    Cardinality(e.sendFlows, j, SendFlow(0, 0, [], false));
  }

  function FlowFilling(server: bool, lim: Limits, n: nat): (schedule: seq<Action>) {
    if n == 0 then []
    else
      var front := FlowFilling(server, lim, n - 1);
      front + FlowFiller(Run(Fresh(server, lim), front), n - 1)
  }

  lemma NoFlows(server: bool, lim: Limits)
    ensures FlowsFilled(Run(Fresh(server, lim), []), 0) && AllDecodable([])
  {
  }

  lemma {:induction false} FillsFlows(server: bool, lim: Limits, n: nat)
    requires Valid(lim) && n <= lim.maxOpenStreams && n < 3 * IDS
    ensures FlowsFilled(Run(Fresh(server, lim), FlowFilling(server, lim, n)), n)
            && AllDecodable(FlowFilling(server, lim, n))
  {
    hide AllDecodable, Run, Valid, AllOk, FlowFiller, FlowsFilled;
    if n == 0 {
      NoFlows(server, lim);
    } else {
      var front := FlowFilling(server, lim, n - 1);
      var e := Run(Fresh(server, lim), front);
      FillsFlows(server, lim, n - 1);
      FreshKeeps(server, lim);
      RunKeeps(Fresh(server, lim), front);
      RunConcat(Fresh(server, lim), front, FlowFiller(e, n - 1));
      FillOneFlow(e, n - 1);
      FlowFillerDecodable(e, n - 1);
      DecodableConcat(front, FlowFiller(e, n - 1));
    }
  }

  // ---- The longest reason ----

  const TOO_MANY: string := "protocol error: too many open send streams"

  /** With every send slot taken, a bidirectional open of the peer ends the session with the longest reason. */
  lemma LongestReason(e: Endpoint)
    requires AllOk(e) && FlowsFilled(e, e.limits.maxOpenStreams) && e.limits.maxOpenStreams < 3 * IDS
    ensures var r := Run(e, [Receive(OpenBi(PeerBiId(e)), true, true)]);
            |r.outbound| > 0 && r.outbound[|r.outbound| - 1] == ConnectionClose(3, Ascii(TOO_MANY))
    ensures AllDecodable([Receive(OpenBi(PeerBiId(e)), true, true)])
  {
    hide AllOk, Run, ReceiveOpen, PeerBiId, Valid;
    ValidOf(e);
    var j := PeerBiId(e);
    PeerBiPlaced(e, j);
    RunOne(e, Receive(OpenBi(j), true, true));
    assert e.limits.maxOpenStreams > 0;
    RefusedBi(e, j);
  }

  lemma RefusedBi(e: Endpoint, j: StreamId)
    requires e.limits.maxOpenStreams > 0 && e.streams == map[] && |e.sendFlows| == e.limits.maxOpenStreams
             && DirOf(j) == Bi
    requires OpenViolation(e, j, Bi).None?
    ensures var r := ReceiveOpen(e, j, Bi, true, true);
            |r.outbound| > 0 && r.outbound[|r.outbound| - 1] == ConnectionClose(3, Ascii(TOO_MANY))
  {
    hide OpenViolation, DirOf, Counter, Ascii;
  }

  /** A closing frame in the log that no batch takes by itself. */
  predicate OversizedClose(server: bool, lim: Limits, schedule: seq<Action>, i: nat) {
    && AllDecodable(schedule) && i < |Views.Log(Run(Fresh(server, lim), schedule))|
    && var f := Views.Log(Run(Fresh(server, lim), schedule))[i];
       f.ConnectionClose? && Fits(Header(f)) && |EncodeFrame(f)| > MaxBytes(lim)
  }

  lemma LogFrameOk(server: bool, lim: Limits, schedule: seq<Action>, i: nat)
    requires Valid(lim) && AllDecodable(schedule) && i < |Views.Log(Run(Fresh(server, lim), schedule))|
    ensures FrameOk(lim, Views.Log(Run(Fresh(server, lim), schedule))[i])
  {
    hide Run, FrameOk, Valid, Decodable;
    RunWire(server, lim, schedule);
  }

  /** Every closing frame of every run fits a batch if and only if the batch limit reaches the longest of them. */
  lemma CloseFitsIff(server: bool, lim: Limits)
    requires Valid(lim)
    ensures (exists schedule, i :: OversizedClose(server, lim, schedule, i)) <==> MaxBytes(lim) < LongestClose(lim)
  {
    if MaxBytes(lim) < LongestClose(lim) {
      var schedule, i := OversizedRun(server, lim);
      assert OversizedClose(server, lim, schedule, i);
    } else {
      hide Run, Valid, EncodeFrame, MaxBytes;
      forall schedule, i: nat | OversizedClose(server, lim, schedule, i) ensures false {
        LogFrameOk(server, lim, schedule, i);
        CloseLength(lim, Views.Log(Run(Fresh(server, lim), schedule))[i]);
      }
    }
  }

  lemma OversizedRun(server: bool, lim: Limits) returns (schedule: seq<Action>, i: nat)
    requires Valid(lim) && MaxBytes(lim) < LongestClose(lim)
    ensures OversizedClose(server, lim, schedule, i)
  {
    hide Run, Valid, AllDecodable, AllOk, FlowsFilled, EncodeFrame, MaxBytes;
    ghost var reason;
    if lim.maxOpenStreams < 3 * IDS {
      schedule := SlotlessRun(server, lim);
      reason := ConnectionClose(3, Ascii(TOO_MANY));
      assert |Ascii(TOO_MANY)| == MAX_REASON;
    } else {
      schedule := RepeatedOpen(server, lim);
      reason := ConnectionClose(1, Ascii(NON_MONOTONIC));
      assert |Ascii(NON_MONOTONIC)| == SHORT_REASON;
    }
    var log := Views.Log(Run(Fresh(server, lim), schedule));
    i := |log| - 1;
    assert log[i] == reason;
    CloseLength(lim, reason);
  }

  lemma SlotlessRun(server: bool, lim: Limits) returns (schedule: seq<Action>)
    requires Valid(lim) && lim.maxOpenStreams < 3 * IDS
    ensures AllDecodable(schedule)
    ensures var log := Views.Log(Run(Fresh(server, lim), schedule));
            |log| > 0 && log[|log| - 1] == ConnectionClose(3, Ascii(TOO_MANY))
  {
    hide Run, Valid, AllDecodable, AllOk, FlowsFilled, Ascii;
    var e0 := Fresh(server, lim);
    var s := FlowFilling(server, lim, lim.maxOpenStreams);
    FillsFlows(server, lim, lim.maxOpenStreams);
    FreshKeeps(server, lim);
    RunKeeps(e0, s);
    var e := Run(e0, s);
    LongestReason(e);
    var t := [Receive(OpenBi(PeerBiId(e)), true, true)];
    RunConcat(e0, s, t);
    DecodableConcat(s, t);
    schedule := s + t;
  }

  const NON_MONOTONIC: string := "OpenUni with non-monotonic StreamId"

  /** The peer opens its first stream twice. */
  lemma RepeatedOpen(server: bool, lim: Limits) returns (schedule: seq<Action>)
    requires Valid(lim)
    ensures AllDecodable(schedule)
    ensures var log := Views.Log(Run(Fresh(server, lim), schedule));
            |log| > 0 && log[|log| - 1] == ConnectionClose(1, Ascii(NON_MONOTONIC))
  {
    hide Run, Step, PeerUniId, Ascii, DirOf, Counter, OpenViolation, HandOver, PassPeerFrontier, ReceiveOpen;
    var e0 := Fresh(server, lim);
    var j := PeerUniId(e0);
    var open := Receive(OpenUni(j), true, true);
    schedule := [open, open];
    NextPeerUniId(e0);
    PeerUniFits(e0);
    RunTwo(e0, open, open);
    PlacedOpen(e0, j, Uni);
    StepForm(e0, Receive(OpenUni(j), true, true));
    NowKnown(e0, j);
    TwiceOpened(HandOver(Enqueue(PassPeerFrontier(e0, j), InitialCredit(e0, j)), j), j);
  }

  lemma PeerUniFits(e: Endpoint)
    requires e.nextPeerUni < IDS
    ensures PeerUniId(e) <= MAX
  {
  }

  lemma NowKnown(e: Endpoint, j: StreamId)
    requires OpenViolation(e, j, Uni).None? && !e.closed
    ensures var e1 := HandOver(Enqueue(PassPeerFrontier(e, j), InitialCredit(e, j)), j);
            OpenViolation(e1, j, Uni) == Some(NON_MONOTONIC) && !e1.closed
  {
    hide DirOf, Counter, NewReader;
  }

  lemma TwiceOpened(e: Endpoint, j: StreamId)
    requires !e.closed && OpenViolation(e, j, Uni) == Some(NON_MONOTONIC)
    ensures var r := Step(e, Receive(OpenUni(j), true, true));
            |r.outbound| > 0 && r.outbound[|r.outbound| - 1] == ConnectionClose(1, Ascii(NON_MONOTONIC))
  {
    hide OpenViolation, Ascii;
  }
}
