/** Runs that leave the limits of the receive registry: which limits can be exceeded at all, and how a session
    then comes to end for want of a credit slot. */
module RegistryRuns {
  import opened VarInts
  import opened Frames
  import opened SessionLimits
  import opened Endpoints
  import opened Views
  import opened EndpointInvariant
  import opened EndpointTheorems
  import opened Registry

  lemma {:induction false} RunConcat(e: Endpoint, s: seq<Action>, t: seq<Action>)
    ensures Run(e, s + t) == Run(Run(e, s), t)
  {
    hide Step;
    if t == [] {
      assert s + t == s;
    } else {
      RunConcat(e, s, t[..|t| - 1]);
      assert (s + t)[..|s + t| - 1] == s + t[..|t| - 1];
    }
  }

  lemma RunOne(e: Endpoint, a: Action)
    ensures Run(e, [a]) == Step(e, a)
  {
    hide Step;
    assert [a][..0] == [];
  }

  lemma RunTwo(e: Endpoint, a: Action, b: Action)
    ensures Run(e, [a, b]) == Step(Step(e, a), b)
  {
    hide Step, Run;
    RunOne(e, a);
    RunOne(Step(e, a), b);
    RunConcat(e, [a], [b]);
    assert [a] + [b] == [a, b];
  }

  lemma RunThree(e: Endpoint, a: Action, b: Action, c: Action)
    ensures Run(e, [a, b, c]) == Step(Step(Step(e, a), b), c)
  {
    hide Step, Run;
    RunTwo(e, a, b);
    RunOne(Step(Step(e, a), b), c);
    RunConcat(e, [a, b], [c]);
    assert [a, b] + [c] == [a, b, c];
  }

  // ---- Filling the registry ----

  function FreshState(lim: Limits): (st: RecvState) {
    RecvState(false, 0, lim.initialStreamWindow)
  }

  function FreshReader(lim: Limits): (rd: Reader) {
    Reader([], [], 0, lim.initialStreamWindow, false, false, [], false)
  }

  /** r is e with stream j entered and nothing else changed that matters here. */
  predicate Entered(e: Endpoint, r: Endpoint, j: StreamId) {
    && j !in e.streams && r.streams == e.streams[j := FreshState(e.limits)]
        && r.readers == e.readers[j := FreshReader(e.limits)]
    && r.isServer == e.isServer && r.limits == e.limits && r.closed == e.closed && r.pendingCredit == e.pendingCredit
    && r.sendFlows == map[] && r.acceptUni == [] && r.acceptBi == []
  }

  predicate Idle(e: Endpoint) {
    !e.closed && e.sendFlows == map[] && e.acceptUni == [] && e.acceptBi == []
  }

  function LocalBiId(e: Endpoint): (j: StreamId) {
    4 * e.nextBi + (if e.isServer then 1 else 0)
  }

  function PeerUniId(e: Endpoint): (j: StreamId) {
    4 * e.nextPeerUni + 2 + (if e.isServer then 0 else 1)
  }

  function PeerBiId(e: Endpoint): (j: StreamId) {
    4 * e.nextPeerBi + (if e.isServer then 0 else 1)
  }

  /** Open a stream of one's own and give up sending on it. */
  lemma LocalBi(e: Endpoint)
    requires AllOk(e) && Idle(e) && e.nextBi < IDS
    ensures var r := Run(e, [OpenBiStream(true, true), RemoveFlow(LocalBiId(e))]);
            && Entered(e, r, LocalBiId(e))
            && r.nextBi == e.nextBi + 1 && r.nextPeerUni == e.nextPeerUni && r.nextPeerBi == e.nextPeerBi
  {
    hide AllOk, Run, DoOpenBi, DoRemoveFlow, Entered;
    var j := LocalBiId(e);
    IdBijection(e.nextBi, e.isServer, Bi, j);
    ValidOf(e);
    hide NewId, LocalBiId;
    assert NextBi(e) == Some(j);
    NextBiIsNew(e);
    RunTwo(e, OpenBiStream(true, true), RemoveFlow(j));
    LocalBiEffect(e, j);
  }

  lemma LocalBiEffect(e: Endpoint, j: StreamId)
    requires Idle(e) && e.limits.maxOpenStreams > 0 && NewId(e.nextBi, e.isServer, Bi) == Some(j) && j !in e.streams
    ensures var r := DoRemoveFlow(DoOpenBi(e, true, true), j);
            && Entered(e, r, j)
            && r.nextBi == e.nextBi + 1 && r.nextPeerUni == e.nextPeerUni && r.nextPeerBi == e.nextPeerBi
  {
    hide NewId;
    assert map[][j := SendFlow(0, 0, [], false)] - {j} == map[];
  }

  lemma NextPeerUniId(e: Endpoint)
    requires e.nextPeerUni < IDS
    ensures var j := PeerUniId(e);
            DirOf(j) == Uni && Counter(j) == e.nextPeerUni && OpenViolation(e, j, Uni).None? && !Known(e, j)
  {
    IdBijection(e.nextPeerUni, !e.isServer, Uni, PeerUniId(e));
  }

  /** Accept a stream of the peer that only it sends on. */
  lemma PeerUni(e: Endpoint)
    requires AllOk(e) && Idle(e) && e.nextPeerUni < IDS && |e.streams| < e.limits.maxOpenStreams
    ensures var r := Run(e, [Receive(OpenUni(PeerUniId(e)), true, true), AcceptUni]);
            && Entered(e, r, PeerUniId(e))
            && r.nextBi == e.nextBi && r.nextPeerUni == e.nextPeerUni + 1 && r.nextPeerBi == e.nextPeerBi
  {
    hide AllOk, Run, ReceiveOpen, HandOver, PassPeerFrontier, DoAcceptUni, Enqueue, Entered, DirOf, Counter, PeerUniId;
    hide OpenViolation, Valid, Known, Step;
    var j := PeerUniId(e);
    NextPeerUniId(e);
    UnknownIsNew(e, j);
    ValidOf(e);
    RunTwo(e, Receive(OpenUni(j), true, true), AcceptUni);
    StepForm(e, Receive(OpenUni(j), true, true));
    StepForm(ReceiveOpen(e, j, Uni, true, true), AcceptUni);
    PlacedOpen(e, j, Uni);
    PeerUniEffect(e, j);
  }

  lemma PeerUniEffect(e: Endpoint, j: StreamId)
    requires Idle(e) && j !in e.streams && DirOf(j) == Uni
    ensures var r := DoAcceptUni(HandOver(Enqueue(PassPeerFrontier(e, j), InitialCredit(e, j)), j));
            && Entered(e, r, j)
            && r.nextBi == e.nextBi && r.nextPeerUni == Counter(j) + 1 && r.nextPeerBi == e.nextPeerBi
  {
    hide DirOf, Counter;
    assert ([] + [j])[1..] == [];
  }

  /** Accept a bidirectional stream of the peer and give up sending on it. */
  lemma PeerBi(e: Endpoint)
    requires AllOk(e) && Idle(e) && e.nextPeerBi < IDS && |e.streams| < e.limits.maxOpenStreams
    ensures var r := Run(e, [Receive(OpenBi(PeerBiId(e)), true, true), AcceptBi, RemoveFlow(PeerBiId(e))]);
            && Entered(e, r, PeerBiId(e))
            && r.nextBi == e.nextBi && r.nextPeerUni == e.nextPeerUni && r.nextPeerBi == e.nextPeerBi + 1
  {
    hide AllOk, Run, ReceiveOpen, HandOver, PassPeerFrontier, DoAcceptBi, DoRemoveFlow, Enqueue, Entered;
    var j := PeerBiId(e);
    IdBijection(e.nextPeerBi, !e.isServer, Bi, j);
    assert DirOf(j) == Bi && ByServer(j) != e.isServer && Counter(j) == e.nextPeerBi;
    hide DirOf, ByServer, Counter, PeerBiId, NewId;
    assert OpenViolation(e, j, Bi).None?;
    UnknownIsNew(e, j);
    ValidOf(e);
    hide OpenViolation, Valid;
    RunThree(e, Receive(OpenBi(j), true, true), AcceptBi, RemoveFlow(j));
    ThreeSteps(e, j);
    hide Step;
    PlacedOpen(e, j, Bi);
    PeerBiEffect(e, j);
  }

  lemma ThreeSteps(e: Endpoint, j: StreamId)
    requires !e.closed
    ensures Step(Step(Step(e, Receive(OpenBi(j), true, true)), AcceptBi), RemoveFlow(j))
            == DoRemoveFlow(DoAcceptBi(ReceiveOpen(e, j, Bi, true, true)), j)
  {
    hide ReceiveOpen, DoAcceptBi, DoRemoveFlow;
  }

  lemma PeerBiEffect(e: Endpoint, j: StreamId)
    requires Idle(e) && j !in e.streams && DirOf(j) == Bi
    ensures var r := DoRemoveFlow(DoAcceptBi(HandOver(Enqueue(PassPeerFrontier(e, j), InitialCredit(e, j)), j)), j);
            && Entered(e, r, j)
            && r.nextBi == e.nextBi && r.nextPeerUni == e.nextPeerUni && r.nextPeerBi == Counter(j) + 1
  {
    hide DirOf, Counter;
    assert ([] + [j])[1..] == [];
    assert map[][j := SendFlow(0, 0, [], false)] - {j} == map[];
  }

  /** A well-placed open for which every slot is free. */
  lemma PlacedOpen(e: Endpoint, j: StreamId, dir: Dir)
    requires Valid(e.limits) && Idle(e) && |e.streams| < e.limits.maxOpenStreams && j !in e.streams
    requires OpenViolation(e, j, dir).None?
    ensures ReceiveOpen(e, j, dir, true, true) == HandOver(Enqueue(PassPeerFrontier(e, j), InitialCredit(e, j)), j)
  {
    hide OpenViolation, ProtocolError, HandOver, DirOf, Counter;
  }

  lemma UnknownIsNew(e: Endpoint, j: StreamId)
    requires AllOk(e) && !Known(e, j)
    ensures j !in e.streams && j !in e.sendFlows
  {
    hide StreamOk, Known;
    assert StreamOk(e, j);
    HeldIsKnown(e, j);
  }

  /** Every frame received in the schedule came out of the decoder. */
  predicate AllDecodable(schedule: seq<Action>) {
    forall i :: 0 <= i < |schedule| ==> Decodable(schedule[i])
  }

  /** A registry of n fresh streams: own ones first, all but one, then those of the peer. */
  predicate Filled(e: Endpoint, n: nat) {
    && Idle(e) && e.pendingCredit == map[] && |e.streams| == n
    && (forall id <- e.streams ::
          e.streams[id] == FreshState(e.limits) && id in e.readers && e.readers[id] == FreshReader(e.limits))
    && e.nextBi == Min(n, IDS - 1)
    && e.nextPeerUni == (if n < IDS then 0 else Min(n - (IDS - 1), IDS))
    && e.nextPeerBi == (if n < 2 * IDS then 0 else n - (2 * IDS - 1))
  }

  lemma EnteredFills(e: Endpoint, r: Endpoint, j: StreamId, n: nat)
    requires Filled(e, n) && Entered(e, r, j)
    requires r.nextBi == Min(n + 1, IDS - 1)
    requires r.nextPeerUni == (if n + 1 < IDS then 0 else Min(n + 1 - (IDS - 1), IDS))
    requires r.nextPeerBi == (if n + 1 < 2 * IDS then 0 else n + 1 - (2 * IDS - 1))
    ensures Filled(r, n + 1)
  {
    Cardinality(e.streams, j, FreshState(e.limits));
  }

  /** One more stream, as long as there are identifiers and slots. */
  function Filler(e: Endpoint, n: nat): (more: seq<Action>) {
    if n < IDS - 1 then [OpenBiStream(true, true), RemoveFlow(LocalBiId(e))]
    else if n < 2 * IDS - 1 then [Receive(OpenUni(PeerUniId(e)), true, true), AcceptUni]
    else [Receive(OpenBi(PeerBiId(e)), true, true), AcceptBi, RemoveFlow(PeerBiId(e))]
  }

  lemma FillOne(e: Endpoint, n: nat)
    requires AllOk(e) && Filled(e, n) && n < e.limits.maxOpenStreams && n < 3 * IDS - 1
    ensures Filled(Run(e, Filler(e, n)), n + 1)
  {
    hide AllOk, Run, Entered, LocalBiId, PeerUniId, PeerBiId;
    if n < IDS - 1 {
      LocalBi(e);
      EnteredFills(e, Run(e, Filler(e, n)), LocalBiId(e), n);
    } else if n < 2 * IDS - 1 {
      PeerUni(e);
      EnteredFills(e, Run(e, Filler(e, n)), PeerUniId(e), n);
    } else {
      PeerBi(e);
      EnteredFills(e, Run(e, Filler(e, n)), PeerBiId(e), n);
    }
  }

  lemma FillerDecodable(e: Endpoint, n: nat)
    requires Filled(e, n) && n < 3 * IDS - 1
    ensures AllDecodable(Filler(e, n))
  {
  }

  /** A schedule that fills n slots. */
  function Filling(server: bool, lim: Limits, n: nat): (schedule: seq<Action>) {
    if n == 0 then []
    else
      var front := Filling(server, lim, n - 1);
      front + Filler(Run(Fresh(server, lim), front), n - 1)
  }

  lemma {:induction false} Fills(server: bool, lim: Limits, n: nat)
    requires Valid(lim) && n <= lim.maxOpenStreams && n < 3 * IDS
    ensures Filled(Run(Fresh(server, lim), Filling(server, lim, n)), n) && AllDecodable(Filling(server, lim, n))
  {
    hide AllDecodable, Run, Valid, AllOk, Filler, Filled;
    if n == 0 {
      NothingFilled(server, lim);
    } else {
      var front := Filling(server, lim, n - 1);
      var e := Run(Fresh(server, lim), front);
      Fills(server, lim, n - 1);
      FreshKeeps(server, lim);
      RunKeeps(Fresh(server, lim), front);
      RunConcat(Fresh(server, lim), front, Filler(e, n - 1));
      FillOne(e, n - 1);
      FillerDecodable(e, n - 1);
      DecodableConcat(front, Filler(e, n - 1));
    }
  }

  lemma NothingFilled(server: bool, lim: Limits)
    ensures Filled(Run(Fresh(server, lim), []), 0) && AllDecodable([])
  {
  }

  lemma DecodableConcat(s: seq<Action>, t: seq<Action>)
    requires AllDecodable(s) && AllDecodable(t)
    ensures AllDecodable(s + t)
  {
    hide Decodable;
  }

  // ---- Which limits can be exceeded ----

  lemma StreamsReceivable(server: bool, lim: Limits, schedule: seq<Action>)
    requires Valid(lim) && AllDecodable(schedule)
    ensures |Run(Fresh(server, lim), schedule).streams| <= 3 * IDS
  {
    hide AllOk, Valid, Run, Decodable, WireOk, CanSend;
    var e := Run(Fresh(server, lim), schedule);
    FreshKeeps(server, lim);
    RunKeeps(Fresh(server, lim), schedule);
    RunWire(server, lim, schedule);
    forall id | id in e.streams ensures CanReceive(id, server) && id < 4 * IDS {
      HeldReceivable(e, id);
    }
    ReceivableCount(server, e.streams.Keys, IDS);
  }

  lemma HeldReceivable(e: Endpoint, id: StreamId)
    requires AllOk(e) && WireOk(e) && id in e.streams
    ensures CanReceive(id, e.isServer) && id <= MAX
  {
    assert StreamOk(e, id);
    hide StreamOk, AllOk, FramesOk, CanSend, Known;
    HeldIsKnown(e, id);
  }

  predicate Exceeds(server: bool, lim: Limits, schedule: seq<Action>) {
    AllDecodable(schedule) && |Run(Fresh(server, lim), schedule).streams| > lim.maxOpenStreams
  }

  /** Some run has more receive states than `maxOpenStreams` allows, for every limit below the number of
      identifiers that can be received on, and for no other. */
  lemma LimitCanBeExceeded(server: bool, lim: Limits)
    requires Valid(lim)
    ensures (exists schedule :: Exceeds(server, lim, schedule)) <==> lim.maxOpenStreams < 3 * IDS
  {
    hide AllOk, Valid, Run, Filled;
    if lim.maxOpenStreams < 3 * IDS {
      var s := Filling(server, lim, lim.maxOpenStreams);
      Fills(server, lim, lim.maxOpenStreams);
      FreshKeeps(server, lim);
      RunKeeps(Fresh(server, lim), s);
      OneMore(Run(Fresh(server, lim), s));
      RunConcat(Fresh(server, lim), s, [OpenBiStream(true, true)]);
      DecodableConcat(s, [OpenBiStream(true, true)]);
      assert Exceeds(server, lim, s + [OpenBiStream(true, true)]);
    } else {
      forall schedule | AllDecodable(schedule) ensures !Exceeds(server, lim, schedule) {
        StreamsReceivable(server, lim, schedule);
      }
    }
  }

  lemma OneMore(e: Endpoint)
    requires AllOk(e) && Filled(e, e.limits.maxOpenStreams)
    ensures |Run(e, [OpenBiStream(true, true)]).streams| > e.limits.maxOpenStreams
  {
    hide AllOk, Run, DoOpenBi, NewId;
    ValidOf(e);
    IdBijection(e.nextBi, e.isServer, Bi, LocalBiId(e));
    RunOne(e, OpenBiStream(true, true));
    StepStreams(e, OpenBiStream(true, true));
  }

  // ---- Running out of credit slots ----

  /** A stream of which c bytes were received and read, and none granted beyond the initial window. */
  predicate Fed(e: Endpoint, id: StreamId, c: nat) {
    && id in e.streams && e.streams[id] == RecvState(false, c, e.limits.initialStreamWindow)
    && id in e.readers && e.readers[id].(delivered := []) == FreshReader(e.limits).(consumed := c)
  }

  function OneByte(id: StreamId): (more: seq<Action>)
    ensures |more| == 3
  {
    [Receive(Stream(id, [0], false), true, true), PopEvent(id), Consume(id, 1)]
  }

  /** Receive a byte and take it from the queue. */
  function Taken(e: Endpoint, id: StreamId): (r: Endpoint) {
    DoPopEvent(HandleFrame(e, Stream(id, [0], false), true, true), id)
  }

  lemma ByteTaken(e: Endpoint, id: StreamId, c: nat)
    requires Valid(e.limits) && !e.closed && Fed(e, id, c) && c < e.limits.initialStreamWindow
    ensures var rd := e.readers[id];
            Taken(e, id) == e.(streams := e.streams[id := RecvState(false, c + 1, e.limits.initialStreamWindow)],
                               readers := e.readers[id := rd.(pending := [0])])
  {
    hide ProtocolError;
    var rd, ev := e.readers[id], RecvEvent([0], false);
    assert StreamViolation(e, id, [0]).None?;
    assert rd.queue + [ev] == [ev] && [ev][1..] == [] && rd.queue == [];
    var e1 := Accounted(e, id, [0], false);
    assert e1.readers[id].(queue := [], pending := [0]) == rd.(pending := [0]);
    assert e.readers[id := e1.readers[id]][id := rd.(pending := [0])] == e.readers[id := rd.(pending := [0])];
  }

  lemma TakenSteps(e: Endpoint, id: StreamId)
    requires !e.closed
    ensures Step(Step(e, Receive(Stream(id, [0], false), true, true)), PopEvent(id)) == Taken(e, id)
    ensures Step(Taken(e, id), Consume(id, 1)) == DoConsume(Taken(e, id), id, 1)
  {
    hide HandleFrame, DoPopEvent, DoConsume;
  }

  lemma OneByteRun(e: Endpoint, id: StreamId)
    requires !e.closed
    ensures Run(e, OneByte(id)) == DoConsume(Taken(e, id), id, 1)
    ensures Run(e, OneByte(id)[..2]) == Taken(e, id) && OneByte(id)[..2] + [Consume(id, 1)] == OneByte(id)
  {
    hide Run, Step, Taken, DoConsume;
    TakenSteps(e, id);
    var b := OneByte(id);
    RunThree(e, b[0], b[1], b[2]);
    RunTwo(e, b[0], b[1]);
    assert b[..2] == [b[0], b[1]];
  }

  /** A byte short of the threshold: nothing is granted. */
  lemma FeedByte(e: Endpoint, id: StreamId, c: nat)
    requires Valid(e.limits) && !e.closed && Fed(e, id, c) && c + 1 < e.limits.windowUpdateThreshold
    ensures var r := Run(e, OneByte(id));
            && Fed(r, id, c + 1) && id in r.streams && id in r.readers && id in e.streams && id in e.readers
            && r == e.(streams := e.streams[id := r.streams[id]], readers := e.readers[id := r.readers[id]])
  {
    hide Run, Taken, DoConsume, OneByte;
    OneByteRun(e, id);
    ByteTaken(e, id, c);
    EarlyConsume(e, id, c);
    var rd := e.readers[id];
    assert e.readers[id := rd.(pending := [0])][id := Handed(rd.(pending := [0]), 1)]
           == e.readers[id := Handed(rd.(pending := [0]), 1)];
  }

  /** Short of the threshold reading grants nothing. */
  lemma EarlyConsume(e: Endpoint, id: StreamId, c: nat)
    requires Valid(e.limits) && !e.closed && Fed(e, id, c) && c + 1 < e.limits.windowUpdateThreshold
    ensures var e1 := Taken(e, id);
            DoConsume(e1, id, 1) == e1.(readers := e1.readers[id := Handed(e.readers[id].(pending := [0]), 1)])
  {
    hide Taken, QueueCredit;
    ByteTaken(e, id, c);
  }

  function Feeding(id: StreamId, n: nat): (more: seq<Action>) {
    if n == 0 then [] else Feeding(id, n - 1) + OneByte(id)
  }

  /** n bytes, together short of the threshold. */
  lemma {:induction false} FeedBytes(e: Endpoint, id: StreamId, n: nat)
    requires Valid(e.limits) && !e.closed && Fed(e, id, 0) && n < e.limits.windowUpdateThreshold
    ensures var r := Run(e, Feeding(id, n));
            && Fed(r, id, n) && id in r.streams && id in r.readers && id in e.streams && id in e.readers
            && r == e.(streams := e.streams[id := r.streams[id]], readers := e.readers[id := r.readers[id]])
  {
    hide Run, OneByte, Fed, Valid;
    if n == 0 {
      NoBytes(e, id);
    } else {
      var mid := Run(e, Feeding(id, n - 1));
      FeedBytes(e, id, n - 1);
      FeedByte(mid, id, n - 1);
      RunConcat(e, Feeding(id, n - 1), OneByte(id));
      var r := Run(mid, OneByte(id));
      assert e.streams[id := mid.streams[id]][id := r.streams[id]] == e.streams[id := r.streams[id]];
      assert e.readers[id := mid.readers[id]][id := r.readers[id]] == e.readers[id := r.readers[id]];
    }
  }

  lemma NoBytes(e: Endpoint, id: StreamId)
    requires Fed(e, id, 0)
    ensures id in e.streams && id in e.readers
    ensures Run(e, Feeding(id, 0)) == e
            == e.(streams := e.streams[id := e.streams[id]], readers := e.readers[id := e.readers[id]])
  {
    assert e.streams == e.streams[id := e.streams[id]] && e.readers == e.readers[id := e.readers[id]];
  }

  lemma {:induction false} FeedingDecodable(id: StreamId, n: nat)
    requires id <= MAX
    ensures AllDecodable(Feeding(id, n))
  {
    if n > 0 {
      FeedingDecodable(id, n - 1);
      assert AllDecodable(OneByte(id));
      DecodableConcat(Feeding(id, n - 1), OneByte(id));
    }
  }

  /** The other streams and their readers are as they were. */
  predicate OthersKept(e: Endpoint, r: Endpoint, id: StreamId) {
    && (forall k <- e.streams :: k != id ==> k in r.streams && r.streams[k] == e.streams[k])
    && (forall k <- e.readers :: k != id ==> k in r.readers && r.readers[k] == e.readers[k])
  }

  /** One more grant is pending, and nothing else is new. */
  predicate Topped(e: Endpoint, r: Endpoint, id: StreamId) {
    && !r.closed && r.limits == e.limits && r.streams.Keys == e.streams.Keys
    && r.pendingCredit == e.pendingCredit[id := e.limits.initialStreamWindow + e.limits.windowUpdateThreshold]
    && OthersKept(e, r, id)
  }

  /** The byte that reaches the threshold has been read: the grant is due. */
  function Ripe(e: Endpoint, id: StreamId): (r: Endpoint) {
    if id !in e.readers then e
    else
      var target := e.limits.initialStreamWindow + e.limits.windowUpdateThreshold;
      Raised(Taken(e, id), id, Handed(e.readers[id].(pending := [0]), 1).(granted := target))
  }

  lemma RipeIs(e: Endpoint, id: StreamId)
    requires Valid(e.limits) && !e.closed && Fed(e, id, e.limits.windowUpdateThreshold - 1)
    ensures var r := Ripe(e, id);
            && r == e.(readers := r.readers, streams := r.streams) && r.streams.Keys == e.streams.Keys
            && OthersKept(e, r, id) && id in r.streams && !r.streams[id].stopped && !Taken(e, id).closed
  {
    hide Taken;
    ByteTaken(e, id, e.limits.windowUpdateThreshold - 1);
  }

  lemma LastConsume(e: Endpoint, id: StreamId)
    requires Valid(e.limits) && !e.closed && Fed(e, id, e.limits.windowUpdateThreshold - 1)
    requires e.limits.initialStreamWindow + e.limits.windowUpdateThreshold <= MAX
    ensures DoConsume(Taken(e, id), id, 1)
            == QueueCredit(Ripe(e, id), id, e.limits.initialStreamWindow + e.limits.windowUpdateThreshold)
  {
    hide Taken, QueueCredit;
    ByteTaken(e, id, e.limits.windowUpdateThreshold - 1);
    var rd1 := Handed(e.readers[id].(pending := [0]), 1);
    assert Target(e.limits.initialStreamWindow, rd1.consumed)
           == e.limits.initialStreamWindow + e.limits.windowUpdateThreshold;
  }

  /** The byte that reaches the threshold: its grant takes a slot, or finds none. */
  lemma LastByte(e: Endpoint, id: StreamId)
    requires Valid(e.limits) && !e.closed && Fed(e, id, e.limits.windowUpdateThreshold - 1)
    requires e.limits.initialStreamWindow + e.limits.windowUpdateThreshold <= MAX
    requires id !in e.pendingCredit && e.pendingCredit.Keys <= e.streams.Keys
             && |e.pendingCredit| <= e.limits.maxOpenStreams
    ensures var r := Run(e, OneByte(id));
            if |e.pendingCredit| < e.limits.maxOpenStreams then Topped(e, r, id) else !Taken(e, id).closed && r.closed
  {
    hide Run, Taken, QueueCredit, DoConsume, Ripe, Fed, OneByte, Valid;
    OneByteRun(e, id);
    RipeIs(e, id);
    LastConsume(e, id);
    SlotTaken(Ripe(e, id), id, e.limits.initialStreamWindow + e.limits.windowUpdateThreshold);
  }

  lemma SlotTaken(e: Endpoint, id: StreamId, target: nat)
    requires id in e.streams && !e.streams[id].stopped && id !in e.pendingCredit
             && e.pendingCredit.Keys <= e.streams.Keys
    requires |e.pendingCredit| <= e.limits.maxOpenStreams
    ensures QueueCredit(e, id, target) == if |e.pendingCredit| < e.limits.maxOpenStreams
                                          then e.(pendingCredit := e.pendingCredit[id := target]) else CloseAll(e)
  {
    hide Pruned, CloseAll;
    assert Pruned(e) == e.pendingCredit;
  }

  /** One stream more than there are slots, k of them with a grant pending and the others untouched. */
  predicate Granting(e: Endpoint, k: nat) {
    && Valid(e.limits) && !e.closed && |e.streams| == e.limits.maxOpenStreams + 1
    && |e.pendingCredit| == k && e.pendingCredit.Keys <= e.streams.Keys
    && (forall id <- e.streams :: id <= MAX && (id !in e.pendingCredit ==> Fed(e, id, 0)))
  }

  function Threshold(id: StreamId, lim: Limits): (more: seq<Action>)
    requires lim.windowUpdateThreshold > 0
  {
    Feeding(id, lim.windowUpdateThreshold - 1)
  }

  lemma UngrantedLeft(e: Endpoint, k: nat) returns (id: StreamId)
    requires Granting(e, k) && k <= e.limits.maxOpenStreams
    ensures id in e.streams && id !in e.pendingCredit && Fed(e, id, 0) && id <= MAX
  {
    hide Fed, Valid;
    if e.streams.Keys <= e.pendingCredit.Keys { SubsetCardinality(e.streams.Keys, e.pendingCredit.Keys); }
    id :| id in e.streams && id !in e.pendingCredit;
  }

  /** Bring one stream to the brink of a grant. */
  lemma Brink(e: Endpoint, k: nat, id: StreamId)
    requires Granting(e, k) && id in e.streams && id !in e.pendingCredit
    ensures var r := Run(e, Threshold(id, e.limits));
            && Fed(r, id, e.limits.windowUpdateThreshold - 1) && !r.closed && r.limits == e.limits
            && r.streams.Keys == e.streams.Keys && r.pendingCredit == e.pendingCredit
            && (forall j <- e.streams :: j != id && j !in e.pendingCredit ==> Fed(r, j, 0))
    ensures AllDecodable(Threshold(id, e.limits))
  {
    assert Valid(e.limits) && Fed(e, id, 0);
    hide Run, Feeding, Valid;
    FeedBytes(e, id, e.limits.windowUpdateThreshold - 1);
    FeedingDecodable(id, e.limits.windowUpdateThreshold - 1);
    var r := Run(e, Threshold(id, e.limits));
    assert e.streams[id := r.streams[id]].Keys == e.streams.Keys;
  }

  lemma ByteDecodable(id: StreamId)
    requires id <= MAX
    ensures AllDecodable(OneByte(id))
  {
  }

  lemma GrantOne(e: Endpoint, k: nat, id: StreamId)
    requires Granting(e, k) && k < e.limits.maxOpenStreams && id in e.streams && id !in e.pendingCredit
    requires e.limits.initialStreamWindow + e.limits.windowUpdateThreshold <= MAX
    ensures Granting(Run(e, Threshold(id, e.limits) + OneByte(id)), k + 1)
    ensures AllDecodable(Threshold(id, e.limits) + OneByte(id))
  {
    hide Run, Threshold, OneByte, AllDecodable, Fed;
    ByteDecodable(id);
    Brink(e, k, id);
    var mid := Run(e, Threshold(id, e.limits));
    RunConcat(e, Threshold(id, e.limits), OneByte(id));
    DecodableConcat(Threshold(id, e.limits), OneByte(id));
    GrantedMore(e, mid, k, id);
  }

  lemma FedStays(e: Endpoint, r: Endpoint, id: StreamId, j: StreamId)
    requires Fed(e, j, 0) && r.limits == e.limits && OthersKept(e, r, id) && j != id
    ensures Fed(r, j, 0)
  {
  }

  lemma SameSize(m: map<StreamId, RecvState>, n: map<StreamId, RecvState>)
    requires m.Keys == n.Keys
    ensures |m| == |n|
  {
    assert |m| == |m.Keys| && |n| == |n.Keys|;
  }

  lemma GrantingAfter(e: Endpoint, mid: Endpoint, r: Endpoint, k: nat, id: StreamId)
    requires Granting(e, k) && id in e.streams && id !in e.pendingCredit && Topped(mid, r, id)
    requires mid.limits == e.limits && mid.streams.Keys == e.streams.Keys && mid.pendingCredit == e.pendingCredit
    requires forall j <- e.streams :: j != id && j !in e.pendingCredit ==> Fed(mid, j, 0)
    ensures Granting(r, k + 1)
  {
    hide Fed, Valid, OthersKept;
    SameSize(e.streams, r.streams);
    Cardinality(e.pendingCredit, id, e.limits.initialStreamWindow + e.limits.windowUpdateThreshold);
    forall j | j in r.streams && j !in r.pendingCredit ensures Fed(r, j, 0) { FedStays(mid, r, id, j); }
  }

  lemma GrantingCount(e: Endpoint, k: nat)
    requires Granting(e, k)
    ensures Valid(e.limits) && |e.pendingCredit| == k && e.pendingCredit.Keys <= e.streams.Keys
  {
  }

  lemma GrantedMore(e: Endpoint, mid: Endpoint, k: nat, id: StreamId)
    requires Granting(e, k) && k < e.limits.maxOpenStreams && id in e.streams && id !in e.pendingCredit
    requires e.limits.initialStreamWindow + e.limits.windowUpdateThreshold <= MAX
    requires Fed(mid, id, e.limits.windowUpdateThreshold - 1) && !mid.closed && mid.limits == e.limits
    requires mid.streams.Keys == e.streams.Keys && mid.pendingCredit == e.pendingCredit
    requires forall j <- e.streams :: j != id && j !in e.pendingCredit ==> Fed(mid, j, 0)
    ensures Granting(Run(mid, OneByte(id)), k + 1)
  {
    hide Run, OneByte, Valid, Fed, Taken, Topped, Granting;
    GrantingCount(e, k);
    LastByte(mid, id);
    GrantingAfter(e, mid, Run(mid, OneByte(id)), k, id);
  }

  lemma {:induction false} GrantAll(e: Endpoint, k: nat) returns (more: seq<Action>)
    requires Granting(e, k) && k <= e.limits.maxOpenStreams
    requires e.limits.initialStreamWindow + e.limits.windowUpdateThreshold <= MAX
    ensures Granting(Run(e, more), e.limits.maxOpenStreams) && AllDecodable(more)
    decreases e.limits.maxOpenStreams - k
  {
    if k == e.limits.maxOpenStreams {
      more := [];
    } else {
      hide Granting, Run, AllDecodable, OneByte;
      var id := UngrantedLeft(e, k);
      assert Valid(e.limits) by { GrantingValid(e, k); }
      var first := Threshold(id, e.limits) + OneByte(id);
      GrantOne(e, k, id);
      var mid := Run(e, first);
      var rest := GrantAll(mid, k + 1);
      more := first + rest;
      RunConcat(e, first, rest);
      DecodableConcat(first, rest);
    }
  }

  lemma GrantingValid(e: Endpoint, k: nat)
    requires Granting(e, k)
    ensures Valid(e.limits) && !e.closed
  {
  }

  predicate RunsOut(server: bool, lim: Limits, schedule: seq<Action>, a: Action) {
    AllDecodable(schedule) && SlotShutdown(Run(Fresh(server, lim), schedule), a)
  }

  /** One stream too many, all untouched. */
  lemma Overfilled(server: bool, lim: Limits) returns (schedule: seq<Action>)
    requires Valid(lim) && lim.maxOpenStreams < 3 * IDS
    ensures Granting(Run(Fresh(server, lim), schedule), 0) && AllDecodable(schedule)
  {
    hide AllOk, Valid, Run, Filled, AllDecodable;
    var s := Filling(server, lim, lim.maxOpenStreams);
    var e := Run(Fresh(server, lim), s);
    Fills(server, lim, lim.maxOpenStreams);
    FreshKeeps(server, lim);
    RunKeeps(Fresh(server, lim), s);
    var more := [OpenBiStream(true, true), RemoveFlow(LocalBiId(e))];
    schedule := s + more;
    RunConcat(Fresh(server, lim), s, more);
    assert AllDecodable(more) by { OwnDecodable(LocalBiId(e)); }
    DecodableConcat(s, more);
    RunWire(server, lim, schedule) by { Unpack(schedule); }
    OverfilledHere(e, Run(e, more));
  }

  lemma OwnDecodable(id: StreamId)
    ensures AllDecodable([OpenBiStream(true, true), RemoveFlow(id)])
  {
  }

  lemma Unpack(schedule: seq<Action>)
    requires AllDecodable(schedule)
    ensures forall i :: 0 <= i < |schedule| ==> Decodable(schedule[i])
  {
  }

  lemma OverfilledHere(e: Endpoint, r: Endpoint)
    requires AllOk(e) && Filled(e, e.limits.maxOpenStreams) && WireOk(r)
    requires r == Run(e, [OpenBiStream(true, true), RemoveFlow(LocalBiId(e))])
    ensures Granting(r, 0)
  {
    hide AllOk, Run, Valid, FramesOk;
    ValidOf(e);
    LocalBi(e);
    Cardinality(e.streams, LocalBiId(e), FreshState(e.limits));
  }

  /** Some run ends a session for want of a credit slot exactly when the limit can be exceeded and a first grant
      fits the varint range. */
  lemma SlotsCanRunOut(server: bool, lim: Limits)
    requires Valid(lim)
    ensures (exists schedule, a :: RunsOut(server, lim, schedule, a)) <==>
            lim.maxOpenStreams < 3 * IDS && lim.initialStreamWindow + lim.windowUpdateThreshold <= MAX
  {
    if lim.maxOpenStreams < 3 * IDS && lim.initialStreamWindow + lim.windowUpdateThreshold <= MAX {
      var schedule, a := ExhaustingRun(server, lim);
      assert RunsOut(server, lim, schedule, a);
    } else {
      forall schedule, a | AllDecodable(schedule) ensures !RunsOut(server, lim, schedule, a) {
        SlotsLast(server, lim, schedule, a);
      }
    }
  }

  lemma ExhaustingRun(server: bool, lim: Limits) returns (schedule: seq<Action>, a: Action)
    requires Valid(lim) && lim.maxOpenStreams < 3 * IDS && lim.initialStreamWindow + lim.windowUpdateThreshold <= MAX
    ensures RunsOut(server, lim, schedule, a)
  {
    hide Run, Valid, AllDecodable, Granting, Fed, Threshold, OneByte;
    var s := Overfilled(server, lim);
    var e0 := Fresh(server, lim);
    var e1 := Run(e0, s);
    var t := GrantAll(e1, 0);
    var e2 := Run(e1, t);
    RunConcat(e0, s, t);
    var id := UngrantedLeft(e2, lim.maxOpenStreams);
    GrantingValid(e2, lim.maxOpenStreams);
    Brink(e2, lim.maxOpenStreams, id);
    var u := Threshold(id, lim);
    var e3 := Run(e2, u);
    RunConcat(e0, s + t, u);
    LastHere(e2, e3, id);
    var v := OneByte(id)[..2];
    OneByteRun(e3, id);
    RunConcat(e0, s + t + u, v);
    DecodableConcat(s, t);
    DecodableConcat(s + t, u);
    assert AllDecodable(v) by { TwoDecodable(id); }
    DecodableConcat(s + t + u, v);
    schedule, a := s + t + u + v, Consume(id, 1);
    ShutdownHere(e3, id);
  }

  lemma TwoDecodable(id: StreamId)
    requires id <= MAX
    ensures AllDecodable(OneByte(id)[..2])
  {
  }

  lemma LastHere(e: Endpoint, r: Endpoint, id: StreamId)
    requires Granting(e, e.limits.maxOpenStreams) && r.limits == e.limits && r.pendingCredit == e.pendingCredit
    requires r.streams.Keys == e.streams.Keys && !r.closed
    ensures Valid(r.limits) && r.pendingCredit.Keys <= r.streams.Keys && |r.pendingCredit| == r.limits.maxOpenStreams
  {
    hide Valid, Fed;
  }

  lemma ShutdownHere(e: Endpoint, id: StreamId)
    requires Valid(e.limits) && !e.closed && Fed(e, id, e.limits.windowUpdateThreshold - 1)
    requires e.limits.initialStreamWindow + e.limits.windowUpdateThreshold <= MAX
    requires id !in e.pendingCredit && e.pendingCredit.Keys <= e.streams.Keys
             && |e.pendingCredit| == e.limits.maxOpenStreams
    ensures SlotShutdown(Taken(e, id), Consume(id, 1))
  {
    hide Run, Taken, Valid, Fed, DoConsume;
    LastByte(e, id);
    OneByteRun(e, id);
  }

  lemma SlotsLast(server: bool, lim: Limits, schedule: seq<Action>, a: Action)
    requires Valid(lim) && AllDecodable(schedule)
    requires lim.maxOpenStreams >= 3 * IDS || lim.initialStreamWindow + lim.windowUpdateThreshold > MAX
    ensures !SlotShutdown(Run(Fresh(server, lim), schedule), a)
  {
    hide Run, AllDecodable, AllOk, Bounded, SlotShutdown, Valid;
    var e := Run(Fresh(server, lim), schedule);
    if SlotShutdown(e, a) {
      RunBounded(server, lim, schedule);
      ShutdownNeedsExcess(e, a);
      StreamsReceivable(server, lim, schedule);
      FreshKeeps(server, lim);
      RunKeeps(Fresh(server, lim), schedule);
      ShutdownNeedsGrant(e, a);
    }
  }

  lemma ShutdownNeedsGrant(e: Endpoint, a: Action)
    requires AllOk(e) && SlotShutdown(e, a)
    ensures e.limits.initialStreamWindow + e.limits.windowUpdateThreshold <= MAX
  {
    assert StreamOk(e, a.id);
    hide StreamOk, AllOk, QueueCredit, SaturatingAdd;
    ReaderOf(e, a.id);
    hide Arrived, FinOnlyLast;
  }
}
