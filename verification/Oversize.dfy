/** When an honest session meets a message that it must reject: exactly if its message limit is below the longest
    closing frame that its peer queues. The run that gets there is one of native sessions, whatever the limits of the
    two: streams fill the send slots of one side while the other gives up its part of each, and then the other opens
    one more. */
module Oversize {
  import opened VarInts
  import opened Frames
  import opened SessionLimits
  import opened Endpoints
  import opened EndpointTheorems
  import opened RegistryRuns
  import opened CloseFrames
  import opened Transmission
  import opened TwoParty
  import opened Exchanges
  import opened HonestClosings
  import opened WireSystem
  import opened NetRounds

  // ---- One endpoint opens ----

  /** Open, with nothing queued and nothing to accept. */
  predicate Still(e: Endpoint) {
    !e.closed && e.outbound == [] && e.acceptUni == [] && e.acceptBi == []
  }

  /** The same counters and limits. */
  predicate SameMarks(e: Endpoint, r: Endpoint) {
    r.limits == e.limits && r.nextUni == e.nextUni && r.nextBi == e.nextBi
  }

  lemma NextLocal(e: Endpoint, dir: Dir) returns (j: StreamId)
    requires AllOk(e) && Frontier(e, true, dir) < IDS
    ensures NewId(Frontier(e, true, dir), e.isServer, dir) == Some(j) && j !in e.sendFlows && j !in e.streams
            && j <= MAX
  {
    hide AllOk;
    j := if dir.Uni? then LocalUniId(e) else LocalBiId(e);
    IdBijection(Frontier(e, true, dir), e.isServer, dir, j);
    LocalIsNew(e, dir, j);
  }

  lemma UniForm(e: Endpoint, j: StreamId)
    requires !e.closed && NewId(e.nextUni, e.isServer, Uni) == Some(j) && SendSlotFree(e, j)
    ensures DoOpenUni(e, true)
            == e.(nextUni := e.nextUni + 1, writers := e.writers + {j},
                  sendFlows := e.sendFlows[j := SendFlow(0, 0, [], false)], outbound := e.outbound + [OpenUni(j)])
  {
    hide NewId, SameWire, Steady;
  }

  lemma BiForm(e: Endpoint, j: StreamId)
    requires !e.closed && NewId(e.nextBi, e.isServer, Bi) == Some(j) && SendSlotFree(e, j)
    ensures DoOpenBi(e, true, true)
            == e.(nextBi := e.nextBi + 1, writers := e.writers + {j},
                  sendFlows := e.sendFlows[j := SendFlow(0, 0, [], false)],
                  streams := e.streams[j := RecvState(false, 0, e.limits.initialStreamWindow)],
                  readers := e.readers[j := NewReader(e)], outbound := e.outbound + [OpenBi(j)] + [InitialCredit(e, j)])
  {
    hide NewId, SameWire, Steady;
  }

  lemma FinForm(e: Endpoint, j: StreamId)
    requires j in e.sendFlows && !e.sendFlows[j].finQueued && e.sendFlows[j].reserved == []
    ensures var r := DoQueueFin(e, j);
            && r == e.(sendFlows := e.sendFlows[j := e.sendFlows[j].(finQueued := true)],
                       outbound := e.outbound + [Stream(j, [], true)])
            && |r.sendFlows| == |e.sendFlows|
  {
    hide Steady;
    Cardinality(e.sendFlows, j, e.sendFlows[j].(finQueued := true));
  }

  /** A stream opened and finished at once keeps its send slot until the application lets go of it. */
  function UniBurst(j: StreamId): (acts: seq<Action>) {
    [OpenUniStream(true), QueueFin(j)]
  }

  function BiBurst(j: StreamId): (acts: seq<Action>) {
    [OpenBiStream(true, true), QueueFin(j)]
  }

  /** A stream opened and given up at once. */
  function LostBurst(j: StreamId): (acts: seq<Action>) {
    [OpenBiStream(true, true), RemoveFlow(j), QueueReset(j, 0)]
  }

  lemma UniRun(e: Endpoint, j: StreamId)
    requires !e.closed && NewId(e.nextUni, e.isServer, Uni) == Some(j) && SendSlotFree(e, j)
    ensures Run(e, UniBurst(j))
            == e.(nextUni := e.nextUni + 1, writers := e.writers + {j},
                  sendFlows := e.sendFlows[j := SendFlow(0, 0, [], true)],
                  outbound := e.outbound + [OpenUni(j)] + [Stream(j, [], true)])
  {
    hide NewId, Step, DoOpenUni, DoQueueFin, Run, SendSlotFree;
    RunTwo(e, OpenUniStream(true), QueueFin(j));
    StepForm(e, OpenUniStream(true));
    UniForm(e, j);
    StepForm(DoOpenUni(e, true), QueueFin(j));
    FinForm(DoOpenUni(e, true), j);
    Overwritten(e.sendFlows, j);
  }

  lemma Overwritten(m: map<StreamId, SendFlow>, j: StreamId)
    ensures m[j := SendFlow(0, 0, [], false)][j := SendFlow(0, 0, [], true)] == m[j := SendFlow(0, 0, [], true)]
  {
  }

  lemma OpensUni(e: Endpoint) returns (j: StreamId)
    requires AllOk(e) && Still(e) && e.nextUni < IDS && |e.sendFlows| < e.limits.maxOpenStreams
    ensures var r := Flushed(Run(e, UniBurst(j)));
            && Still(r) && r.sent == e.sent + [OpenUni(j), Stream(j, [], true)]
            && SameMarks(e.(nextUni := e.nextUni + 1), r) && |r.sendFlows| == |e.sendFlows| + 1
            && r.streams == e.streams
  {
    hide AllOk, NewId, Run, UniBurst;
    j := NextLocal(e, Uni);
    UniRun(e, j);
    Cardinality(e.sendFlows, j, SendFlow(0, 0, [], true));
  }

  lemma BiRun(e: Endpoint, j: StreamId)
    requires !e.closed && NewId(e.nextBi, e.isServer, Bi) == Some(j) && SendSlotFree(e, j)
    ensures Run(e, BiBurst(j))
            == e.(nextBi := e.nextBi + 1, writers := e.writers + {j},
                  sendFlows := e.sendFlows[j := SendFlow(0, 0, [], true)],
                  streams := e.streams[j := RecvState(false, 0, e.limits.initialStreamWindow)],
                  readers := e.readers[j := NewReader(e)],
                  outbound := e.outbound + [OpenBi(j)] + [InitialCredit(e, j)] + [Stream(j, [], true)])
  {
    hide NewId, Step, DoOpenBi, DoQueueFin, Run, SendSlotFree, InitialCredit, NewReader;
    RunTwo(e, OpenBiStream(true, true), QueueFin(j));
    StepForm(e, OpenBiStream(true, true));
    BiForm(e, j);
    StepForm(DoOpenBi(e, true, true), QueueFin(j));
    FinForm(DoOpenBi(e, true, true), j);
    Overwritten(e.sendFlows, j);
  }

  lemma OpensBi(e: Endpoint) returns (j: StreamId)
    requires AllOk(e) && Still(e) && e.nextBi < IDS && |e.sendFlows| < e.limits.maxOpenStreams
    ensures var r := Flushed(Run(e, BiBurst(j)));
            && Still(r) && r.sent == e.sent + [OpenBi(j), InitialCredit(e, j), Stream(j, [], true)]
            && SameMarks(e.(nextBi := e.nextBi + 1), r) && |r.sendFlows| == |e.sendFlows| + 1
            && j in r.streams && r.streams - {j} == e.streams
  {
    hide AllOk, NewId, Run, BiBurst, InitialCredit, NewReader;
    j := NextLocal(e, Bi);
    BiRun(e, j);
    Cardinality(e.sendFlows, j, SendFlow(0, 0, [], true));
    Forgotten(e.streams, j, RecvState(false, 0, e.limits.initialStreamWindow));
  }

  lemma Forgotten<V>(m: map<StreamId, V>, j: StreamId, v: V)
    requires j !in m
    ensures m[j := v] - {j} == m
  {
  }

  lemma GivenUp(e: Endpoint, j: StreamId)
    requires !e.closed && j in e.writers
    ensures DoQueueReset(DoRemoveFlow(e, j), j, 0)
            == e.(sendFlows := e.sendFlows - {j}, outbound := e.outbound + [ResetStream(j, 0)])
  {
    hide Steady;
  }

  lemma LostRun(e: Endpoint, j: StreamId)
    requires !e.closed && NewId(e.nextBi, e.isServer, Bi) == Some(j) && SendSlotFree(e, j)
    ensures Run(e, LostBurst(j))
            == e.(nextBi := e.nextBi + 1, writers := e.writers + {j},
                  sendFlows := e.sendFlows[j := SendFlow(0, 0, [], false)] - {j},
                  streams := e.streams[j := RecvState(false, 0, e.limits.initialStreamWindow)],
                  readers := e.readers[j := NewReader(e)],
                  outbound := e.outbound + [OpenBi(j)] + [InitialCredit(e, j)] + [ResetStream(j, 0)])
  {
    hide NewId, Step, DoOpenBi, DoRemoveFlow, DoQueueReset, Run, SendSlotFree, InitialCredit, NewReader;
    RunThree(e, OpenBiStream(true, true), RemoveFlow(j), QueueReset(j, 0));
    StepForm(e, OpenBiStream(true, true));
    BiForm(e, j);
    var e1 := DoOpenBi(e, true, true);
    StepForm(e1, RemoveFlow(j));
    StepForm(DoRemoveFlow(e1, j), QueueReset(j, 0));
    GivenUp(e1, j);
  }

  lemma OpensLost(e: Endpoint) returns (j: StreamId)
    requires AllOk(e) && Still(e) && e.nextBi < IDS && |e.sendFlows| < e.limits.maxOpenStreams
    ensures var r := Flushed(Run(e, LostBurst(j)));
            && Still(r) && r.sent == e.sent + [OpenBi(j), InitialCredit(e, j), ResetStream(j, 0)]
            && SameMarks(e.(nextBi := e.nextBi + 1), r) && r.sendFlows == e.sendFlows
  {
    hide AllOk, NewId, Run, LostBurst, InitialCredit, NewReader;
    j := NextLocal(e, Bi);
    LostRun(e, j);
    Forgotten(e.sendFlows, j, SendFlow(0, 0, [], false));
  }

  // ---- The other one takes it ----

  /** A stream of the peer, and credit for it, wait for the endpoint. */
  predicate Answering(e: Endpoint, j: StreamId, dir: Dir) {
    && !e.closed && e.outbound == [InitialCredit(e, j)]
    && e.acceptUni == (if dir.Uni? then [j] else []) && e.acceptBi == (if dir.Uni? then [] else [j])
  }

  function OpenFrame(j: StreamId, dir: Dir): (f: Frame) {
    if dir.Uni? then OpenUni(j) else OpenBi(j)
  }

  /** Just taken: a fresh receive state and, for both directions, a fresh flow. */
  predicate JustTaken(e: Endpoint, r: Endpoint, j: StreamId, dir: Dir) {
    && Answering(r, j, dir) && SameMarks(e, r) && r.sent == e.sent
    && r.streams == e.streams[j := RecvState(false, 0, e.limits.initialStreamWindow)]
    && j in r.readers && r.readers[j].queue == []
    && (if dir.Uni? then r.sendFlows == e.sendFlows
        else r.sendFlows == e.sendFlows[j := SendFlow(0, 0, [], false)] && j in r.writers)
  }

  lemma TakesOpen(e: Endpoint, j: StreamId, dir: Dir)
    requires AllOk(e) && Still(e) && OpenViolation(e, j, dir).None? && j !in e.streams
    requires |e.streams| < e.limits.maxOpenStreams && (dir.Bi? ==> |e.sendFlows| < e.limits.maxOpenStreams)
    ensures JustTaken(e, Step(e, Receive(OpenFrame(j, dir), true, true)), j, dir) && j !in e.sendFlows
  {
    hide AllOk, Step, OpenViolation, HandOver, ReceiveOpen, JustTaken, Enqueue, PassPeerFrontier;
    StepForm(e, Receive(OpenFrame(j, dir), true, true));
    PeerIsNew(e, j, dir);
    OpenAdmitted(e, j, dir);
    FreshlyHandedOver(e, j, dir);
  }

  lemma PeerIsNew(e: Endpoint, j: StreamId, dir: Dir)
    requires AllOk(e) && OpenViolation(e, j, dir).None?
    ensures j !in e.sendFlows && DirOf(j) == dir && Valid(e.limits)
  {
    hide AllOk, Known, DirOf;
    UnknownIsNew(e, j);
    ValidOf(e);
  }

  lemma OpenAdmitted(e: Endpoint, j: StreamId, dir: Dir)
    requires Valid(e.limits) && Still(e) && OpenViolation(e, j, dir).None? && j !in e.streams
    requires DirOf(j) == dir && j !in e.sendFlows
    requires |e.streams| < e.limits.maxOpenStreams && (dir.Bi? ==> |e.sendFlows| < e.limits.maxOpenStreams)
    ensures ReceiveOpen(e, j, dir, true, true) == HandOver(Enqueue(PassPeerFrontier(e, j), InitialCredit(e, j)), j)
  {
    hide OpenViolation, ProtocolError, HandOver, DirOf, Counter, Enqueue;
  }

  lemma FreshlyHandedOver(e: Endpoint, j: StreamId, dir: Dir)
    requires Still(e) && DirOf(j) == dir
    ensures JustTaken(e, HandOver(Enqueue(PassPeerFrontier(e, j), InitialCredit(e, j)), j), j, dir)
  {
    hide DirOf, HandOver, Enqueue, PassPeerFrontier, Steady;
    OpenQueued(e, j);
    HandOverFields(Enqueue(PassPeerFrontier(e, j), InitialCredit(e, j)), j);
  }

  /** Credit changes nothing but the credit. */
  predicate SameBut(e: Endpoint, r: Endpoint) {
    r == e.(sendFlows := r.sendFlows) && r.sendFlows.Keys == e.sendFlows.Keys
  }

  lemma TakesCredit(e: Endpoint, j: StreamId, max: nat)
    ensures SameBut(e, Step(e, Receive(MaxStreamData(j, max), true, true)))
  {
    hide Step, Steady;
    StepForm(e, Receive(MaxStreamData(j, max), true, true));
    if j in e.sendFlows {
      var m := e.sendFlows[j := e.sendFlows[j].(maxData := Max(e.sendFlows[j].maxData, max))];
      assert m.Keys == e.sendFlows.Keys;
    }
  }

  lemma SameKeys(m: map<StreamId, SendFlow>, n: map<StreamId, SendFlow>)
    requires m.Keys == n.Keys
    ensures |m| == |n|
  {
    assert |m| == |m.Keys| && |n| == |n.Keys|;
  }

  lemma TakesFin(e: Endpoint, j: StreamId)
    requires !e.closed && Valid(e.limits) && j in e.readers && e.readers[j].queue == []
    requires j in e.streams && e.streams[j] == RecvState(false, 0, e.limits.initialStreamWindow)
    ensures var r := Step(e, Receive(Stream(j, [], true), true, true));
            r == e.(streams := e.streams - {j}, readers := r.readers)
  {
    hide Step, ProtocolError, Steady;
    StepForm(e, Receive(Stream(j, [], true), true, true));
    assert StreamViolation(e, j, []).None?;
  }

  lemma TakesReset(e: Endpoint, j: StreamId)
    requires !e.closed && j in e.streams
    ensures Step(e, Receive(ResetStream(j, 0), true, true)) == e.(streams := e.streams - {j})
  {
    hide Step, ProtocolError, Steady;
    StepForm(e, Receive(ResetStream(j, 0), true, true));
  }

  /** The frames of the peer, handled one after the other. */
  function Handled(e: Endpoint, fs: seq<Frame>): (r: Endpoint) {
    if fs == [] then e else Step(Handled(e, fs[..|fs| - 1]), Receive(fs[|fs| - 1], true, true))
  }

  lemma HandledOne(e: Endpoint, f: Frame)
    ensures Handled(e, [f]) == Step(e, Receive(f, true, true))
  {
    hide Step;
    assert [f][..0] == [];
  }

  lemma HandledTwo(e: Endpoint, f: Frame, g: Frame)
    ensures Handled(e, [f, g]) == Step(Step(e, Receive(f, true, true)), Receive(g, true, true))
  {
    hide Step;
    assert [f, g][..1] == [f];
    HandledOne(e, f);
  }

  lemma HandledThree(e: Endpoint, f: Frame, g: Frame, h: Frame)
    ensures Handled(e, [f, g, h]) == Step(Handled(e, [f, g]), Receive(h, true, true))
  {
    hide Step;
    assert [f, g, h][..2] == [f, g];
  }

  /** Of the stream nothing is left but the handles, and a flow if it can be sent on. */
  predicate Spent(e: Endpoint, r: Endpoint, j: StreamId, dir: Dir) {
    && Answering(r, j, dir) && SameMarks(e, r) && r.sent == e.sent && r.streams == e.streams
    && (dir.Uni? ==> r.sendFlows == e.sendFlows)
    && (dir.Bi? ==> j !in e.sendFlows && r.sendFlows.Keys == e.sendFlows.Keys + {j} && j in r.writers)
  }

  lemma TakesUni(e: Endpoint, j: StreamId)
    requires AllOk(e) && Still(e) && OpenViolation(e, j, Uni).None? && j !in e.streams
    requires |e.streams| < e.limits.maxOpenStreams
    ensures Spent(e, Handled(e, [OpenUni(j), Stream(j, [], true)]), j, Uni)
  {
    hide AllOk, Step, OpenViolation, Valid, Handled, InitialCredit;
    ValidOf(e);
    TakesOpen(e, j, Uni);
    TakesFin(Step(e, Receive(OpenFrame(j, Uni), true, true)), j);
    HandledTwo(e, OpenUni(j), Stream(j, [], true));
    Forgotten(e.streams, j, RecvState(false, 0, e.limits.initialStreamWindow));
    SameCredit(Step(e, Receive(OpenFrame(j, Uni), true, true)), Handled(e, [OpenUni(j), Stream(j, [], true)]), j);
  }

  lemma SameCredit(e: Endpoint, r: Endpoint, j: StreamId)
    requires r.limits == e.limits
    ensures InitialCredit(r, j) == InitialCredit(e, j)
  {
  }

  lemma TakesBoth(e: Endpoint, j: StreamId, max: nat)
    requires AllOk(e) && Still(e) && OpenViolation(e, j, Bi).None? && j !in e.streams
    requires |e.streams| < e.limits.maxOpenStreams && |e.sendFlows| < e.limits.maxOpenStreams
    ensures var r := Handled(e, [OpenBi(j), MaxStreamData(j, max)]);
            && Answering(r, j, Bi) && SameMarks(e, r) && r.sent == e.sent
            && r.streams == e.streams[j := RecvState(false, 0, e.limits.initialStreamWindow)]
            && j in r.readers && r.readers[j].queue == []
            && j !in e.sendFlows && r.sendFlows.Keys == e.sendFlows.Keys + {j} && j in r.writers
  {
    hide AllOk, Step, OpenViolation, Handled, InitialCredit;
    TakesOpen(e, j, Bi);
    var e1 := Step(e, Receive(OpenFrame(j, Bi), true, true));
    TakesCredit(e1, j, max);
    HandledTwo(e, OpenBi(j), MaxStreamData(j, max));
    SameCredit(e1, Handled(e, [OpenBi(j), MaxStreamData(j, max)]), j);
  }

  lemma TakesBi(e: Endpoint, j: StreamId, max: nat, end: Frame)
    requires AllOk(e) && Still(e) && OpenViolation(e, j, Bi).None? && j !in e.streams
    requires |e.streams| < e.limits.maxOpenStreams && |e.sendFlows| < e.limits.maxOpenStreams
    requires end in {Stream(j, [], true), ResetStream(j, 0)}
    ensures Spent(e, Handled(e, [OpenBi(j), MaxStreamData(j, max), end]), j, Bi)
  {
    hide AllOk, Step, OpenViolation, Valid, Handled, InitialCredit;
    ValidOf(e);
    TakesBoth(e, j, max);
    var e2 := Handled(e, [OpenBi(j), MaxStreamData(j, max)]);
    HandledThree(e, OpenBi(j), MaxStreamData(j, max), end);
    if end.Stream? { TakesFin(e2, j); } else { TakesReset(e2, j); }
    Forgotten(e.streams, j, RecvState(false, 0, e.limits.initialStreamWindow));
    SameCredit(e2, Handled(e, [OpenBi(j), MaxStreamData(j, max), end]), j);
  }

  // ---- And answers ----

  function AcceptAction(dir: Dir): (a: Action) {
    if dir.Uni? then AcceptUni else AcceptBi
  }

  /** What acceptance leaves of the state. */
  predicate Answered(e: Endpoint, r: Endpoint) {
    Still(r) && SameMarks(e, r) && r.streams == e.streams
  }

  lemma Accepts(e: Endpoint, j: StreamId, dir: Dir)
    requires Answering(e, j, dir)
    ensures Step(e, AcceptAction(dir)) == e.(acceptUni := [], acceptBi := [])
  {
    hide Step, Steady;
    StepForm(e, AcceptAction(dir));
  }

  lemma Answers(e: Endpoint, j: StreamId, dir: Dir)
    requires Answering(e, j, dir)
    ensures var r := Flushed(Run(e, [AcceptAction(dir)]));
            Answered(e, r) && r.sendFlows == e.sendFlows && r.sent == e.sent + [InitialCredit(e, j)]
  {
    hide Step, Run, InitialCredit, AcceptAction;
    RunOne(e, AcceptAction(dir));
    Accepts(e, j, dir);
  }

  /** Accept the stream and give up sending on it. */
  function LetGo(j: StreamId): (acts: seq<Action>) {
    [AcceptBi, RemoveFlow(j), QueueReset(j, 0)]
  }

  lemma AnswersAndLetsGo(e: Endpoint, j: StreamId)
    requires Answering(e, j, Bi) && j in e.writers
    ensures var r := Flushed(Run(e, LetGo(j)));
            && Answered(e, r) && r.sendFlows == e.sendFlows - {j}
            && r.sent == e.sent + [InitialCredit(e, j), ResetStream(j, 0)]
  {
    hide Step, Run, InitialCredit, DoRemoveFlow, DoQueueReset;
    RunThree(e, AcceptBi, RemoveFlow(j), QueueReset(j, 0));
    Accepts(e, j, Bi);
    var e1 := Step(e, AcceptBi);
    StepForm(e1, RemoveFlow(j));
    StepForm(DoRemoveFlow(e1, j), QueueReset(j, 0));
    GivenUp(e1, j);
  }

  // ---- Both endpoints ----

  lemma {:induction false} ActAllInv(s: System, acts: seq<Action>)
    requires Inv(s) && OwnActs(acts)
    ensures Inv(ActAll(s, acts))
  {
    hide Inv, Step, Waiting;
    if acts != [] {
      var front := acts[..|acts| - 1];
      ActAllInv(s, front);
      ActInv(ActAll(s, front), acts[|acts| - 1]);
    }
  }

  lemma PostedInv(s: System, acts: seq<Action>)
    requires Inv(s) && OwnActs(acts)
    ensures Inv(Flip(Posted(s, acts)))
  {
    hide Inv, ActAll, FlushA, OwnActs;
    ActAllInv(s, acts);
    FlushInv(ActAll(s, acts));
    FlipInv(Posted(s, acts));
  }

  lemma {:induction false} DeliversFrames(t: System, k: nat)
    requires t.seenByA + k <= |t.b.sent|
    ensures var r := Delivered(t, k);
            && r.a == Handled(t.a, t.b.sent[t.seenByA..t.seenByA + k]) && r.b == t.b && r.seenByB == t.seenByB
            && (!r.a.closed ==> r.seenByA == t.seenByA + k)
  {
    hide Step;
    if k > 0 {
      DeliversFrames(t, k - 1);
      var fs := t.b.sent[t.seenByA..t.seenByA + k];
      assert fs[..k - 1] == t.b.sent[t.seenByA..t.seenByA + (k - 1)] && fs[k - 1] == t.b.sent[t.seenByA + k - 1];
      var mid := Delivered(t, k - 1);
      if mid.a.closed { ClosedReceives(mid.a, fs[k - 1], true, true); }
      StaysClosed(mid.a, fs[k - 1]);
    }
  }

  /** a sends the frames fs, and b handles them. */
  lemma PassIs(s: System, acts: seq<Action>, fs: seq<Frame>)
    requires s.seenByB == |s.a.sent| && Flushed(Run(s.a, acts)).sent == s.a.sent + fs
    ensures var r := AfterPass(s, acts);
            && r.a == Flushed(Run(s.a, acts)) && r.b == Handled(s.b, fs) && r.seenByA == s.seenByA
            && (!r.b.closed ==> r.seenByB == |r.a.sent|)
  {
    hide Run, Handled, Delivered, Flushed;
    var t := Flip(Posted(s, acts));
    assert t.b.sent[t.seenByA..t.seenByA + |fs|] == fs;
    DeliversFrames(t, |fs|);
  }

  /** All that was sent has been handled. */
  predicate Seen(s: System) {
    s.seenByA == |s.b.sent| && s.seenByB == |s.a.sent|
  }

  predicate AtRest(s: System) {
    Still(s.a) && Still(s.b) && Seen(s)
  }

  /** The frames that a is about to send are an open for b and what follows it. */
  lemma OpenArrives(s: System, acts: seq<Action>, j: StreamId, dir: Dir, fs: seq<Frame>)
    requires Inv(s) && OwnActs(acts) && s.seenByB == |s.a.sent|
    requires Flushed(Run(s.a, acts)).sent == s.a.sent + fs && |fs| > 0 && fs[0] == OpenFrame(j, dir)
    ensures OpenViolation(s.b, j, dir).None? && j !in s.b.streams && AllOk(s.b) && AllOk(s.a)
  {
    hide Inv, Run, Flushed, OwnActs, AllOk, WireOk, OpenViolation;
    PostedInv(s, acts);
    SideOf(Flip(Posted(s, acts)));
    SideOf(s);
    NextOpenPlaced(Flip(Posted(s, acts)), j, dir);
  }

  lemma OwnBursts(j: StreamId)
    ensures OwnActs(UniBurst(j)) && OwnActs(BiBurst(j)) && OwnActs(LostBurst(j)) && OwnActs(LetGo(j))
    ensures OwnActs([AcceptUni]) && OwnActs([AcceptBi]) && OwnActs([OpenBiStream(true, true)]) && OwnActs([])
  {
  }

  lemma OkOfA(s: System)
    requires Inv(s)
    ensures AllOk(s.a)
  {
    hide AllOk, WireOk;
    SideOf(s);
  }

  // ---- Filling ----

  /** u unidirectional and w bidirectional streams of a, and m of b, each of which keeps a send slot of a and nothing
      else of it or b but b's own receive state. */
  predicate Populated(s: System, u: nat, w: nat, m: nat) {
    && AtRest(s) && s.a.nextUni == u && s.a.nextBi == w && s.b.nextBi == m
    && |s.a.sendFlows| == u + w + m && s.a.streams == map[] && s.b.sendFlows == map[]
    && (m == 0 ==> s.b.streams == map[])
  }

  /** A whole round: a opens, b answers. */
  function AfterRound(s: System, opens: seq<Action>, answers: seq<Action>): (r: System) {
    Flip(AfterPass(Flip(AfterPass(s, opens)), answers))
  }

  lemma RoundUni(s: System, u: nat, w: nat) returns (opens: seq<Action>)
    requires Inv(s) && Populated(s, u, w, 0) && u < IDS && u + w < s.a.limits.maxOpenStreams
    requires s.b.limits.maxOpenStreams > 0
    ensures OwnActs(opens) && !AfterPass(s, opens).b.closed
    ensures Populated(AfterRound(s, opens, [AcceptUni]), u + 1, w, 0)
  {
    hide Inv, Run, Handled, OwnActs, AllOk, OpenViolation, AfterPass, InitialCredit, Flushed, UniBurst;
    OkOfA(s);
    var j := OpensUni(s.a);
    opens := UniBurst(j);
    OwnBursts(j);
    var fs := [OpenUni(j), Stream(j, [], true)];
    OpenArrives(s, opens, j, Uni, fs);
    TakesUni(s.b, j);
    PassIs(s, opens, fs);
    PassAccepted(Flip(AfterPass(s, opens)), j, Uni);
  }

  lemma CreditArrives(e: Endpoint, from: Endpoint, j: StreamId)
    ensures SameBut(e, Handled(e, [InitialCredit(from, j)]))
            && |Handled(e, [InitialCredit(from, j)]).sendFlows| == |e.sendFlows|
  {
    hide Step, Handled;
    HandledOne(e, InitialCredit(from, j));
    TakesCredit(e, j, from.limits.initialStreamWindow);
    SameKeys(e.sendFlows, Handled(e, [InitialCredit(from, j)]).sendFlows);
  }

  lemma RoundBi(s: System, u: nat, w: nat) returns (opens: seq<Action>, answers: seq<Action>)
    requires Inv(s) && Populated(s, u, w, 0) && w < IDS && u + w < s.a.limits.maxOpenStreams
    requires s.b.limits.maxOpenStreams > 0
    ensures OwnActs(opens) && OwnActs(answers) && !AfterPass(s, opens).b.closed
    ensures Populated(AfterRound(s, opens, answers), u, w + 1, 0)
  {
    hide Inv, Run, Step, Handled, OwnActs, AllOk, OpenViolation, AfterPass, Flushed, BiBurst, LetGo;
    OkOfA(s);
    var j := OpensBi(s.a);
    opens, answers := BiBurst(j), LetGo(j);
    OwnBursts(j);
    var fs := [OpenBi(j), InitialCredit(s.a, j), Stream(j, [], true)];
    OpenArrives(s, opens, j, Bi, fs);
    TakesBi(s.b, j, s.a.limits.initialStreamWindow, Stream(j, [], true));
    PassIs(s, opens, fs);
    var s1 := AfterPass(s, opens);
    AnswersAndLetsGo(s1.b, j);
    PassIs(Flip(s1), answers, [InitialCredit(s1.b, j), ResetStream(j, 0)]);
    EndArrives(s1.a, s1.b, j);
    OnlyOne(s1.b.sendFlows, j);
  }

  lemma OnlyOne(m: map<StreamId, SendFlow>, j: StreamId)
    requires m.Keys == {j}
    ensures m - {j} == map[]
  {
  }

  lemma EndArrives(e: Endpoint, from: Endpoint, j: StreamId)
    requires !e.closed && j in e.streams
    ensures var r := Handled(e, [InitialCredit(from, j), ResetStream(j, 0)]);
            r == e.(sendFlows := r.sendFlows, streams := e.streams - {j}) && |r.sendFlows| == |e.sendFlows|
  {
    hide Step, Handled;
    HandledTwo(e, InitialCredit(from, j), ResetStream(j, 0));
    TakesCredit(e, j, from.limits.initialStreamWindow);
    var e1 := Step(e, Receive(InitialCredit(from, j), true, true));
    TakesReset(e1, j);
    SameKeys(e.sendFlows, e1.sendFlows);
  }

  /** a opens a stream and gives it up, and b takes it. */
  lemma PassLost(s: System) returns (j: StreamId)
    requires Inv(s) && AtRest(s) && s.a.nextBi < IDS && |s.a.sendFlows| < s.a.limits.maxOpenStreams
    requires |s.b.streams| < s.b.limits.maxOpenStreams && |s.b.sendFlows| < s.b.limits.maxOpenStreams
    ensures var r := AfterPass(s, LostBurst(j));
            && Spent(s.b, r.b, j, Bi) && Seen(r) && Still(r.a) && r.a.sendFlows == s.a.sendFlows
            && SameMarks(s.a.(nextBi := s.a.nextBi + 1), r.a)
  {
    hide Inv, Run, Handled, OwnActs, AllOk, OpenViolation, AfterPass, Flushed, LostBurst, Still, SameMarks;
    OkOfA(s);
    j := OpensLost(s.a);
    OwnBursts(j);
    var fs := [OpenBi(j), InitialCredit(s.a, j), ResetStream(j, 0)];
    OpenArrives(s, LostBurst(j), j, Bi, fs);
    TakesBi(s.b, j, s.a.limits.initialStreamWindow, ResetStream(j, 0));
    PassIs(s, LostBurst(j), fs);
  }

  /** a accepts the stream, and its credit changes nothing else at b. */
  lemma PassAccepted(s: System, j: StreamId, dir: Dir)
    requires Answering(s.a, j, dir) && Still(s.b) && Seen(s)
    ensures var r := AfterPass(s, [AcceptAction(dir)]);
            && AtRest(r) && Answered(s.a, r.a) && r.a.sendFlows == s.a.sendFlows
            && SameBut(s.b, r.b) && |r.b.sendFlows| == |s.b.sendFlows|
  {
    hide Run, Handled, AfterPass, Flushed, InitialCredit, AcceptAction;
    Answers(s.a, j, dir);
    PassIs(s, [AcceptAction(dir)], [InitialCredit(s.a, j)]);
    CreditArrives(s.b, s.a, j);
  }

  lemma RoundPeer(s: System, u: nat, w: nat, m: nat) returns (opens: seq<Action>)
    requires Inv(s) && Populated(s, u, w, m) && m < IDS && u + w + m < s.a.limits.maxOpenStreams
    requires s.b.limits.maxOpenStreams > 0
    ensures OwnActs(opens) && !AfterPass(Flip(s), opens).b.closed
    ensures Populated(Flip(AfterRound(Flip(s), opens, [AcceptBi])), u, w, m + 1)
  {
    hide Inv, OwnActs, AfterPass, LostBurst, InitialCredit;
    var t := Flip(s);
    FlipInv(s);
    var j := PassLost(t);
    opens := LostBurst(j);
    OwnBursts(j);
    var s1 := AfterPass(t, opens);
    PassAccepted(Flip(s1), j, Bi);
    OneMoreKey(s.a.sendFlows, s1.b.sendFlows, j);
  }

  lemma OneMoreKey(m: map<StreamId, SendFlow>, n: map<StreamId, SendFlow>, j: StreamId)
    requires j !in m && n.Keys == m.Keys + {j}
    ensures |n| == |m| + 1
  {
    assert |m| == |m.Keys| && |n| == |n.Keys|;
  }

  /** A round over the WebSocket. */
  lemma PlayRound(utf8: seq<Byte> -> bool, n: Net, s: System, opens: seq<Action>, answers: seq<Action>)
      returns (r: Net)
    requires AsciiIsText(utf8) && Between(n, s) && OwnActs(opens) && OwnActs(answers)
    requires !s.a.closed && !AfterPass(s, opens).b.closed
    ensures Reaches(utf8, n, r) && Between(r, AfterRound(s, opens, answers))
  {
    hide AsciiIsText, Between, Reaches, Posted, AfterPass, TransitFits, OwnActs, TooLarge, OpenToLast;
    OpenIsFaultless(n, s);
    var n1, stuck1 := Pass(utf8, n, s, opens);
    var s1 := Flip(AfterPass(s, opens));
    BetweenFlip(n1, AfterPass(s, opens));
    OpenIsFaultless(FlipNet(n1), s1);
    var n2, stuck2 := Pass(utf8, FlipNet(n1), s1, answers);
    r := FlipNet(n2);
    ReachFlip(utf8, n1, n2);
    ReachOn(utf8, n, n1, r);
    BetweenFlip(n2, AfterPass(s1, answers));
  }

  lemma OpenIsFaultless(n: Net, s: System)
    requires Between(n, s) && !s.a.closed
    ensures s.a.error.None?
  {
    hide Inv, NetRel, Working;
    RelParts(n, s);
    CodesOf(s);
  }

  /** The same with b opening. */
  lemma PlayRoundB(utf8: seq<Byte> -> bool, n: Net, s: System, opens: seq<Action>, answers: seq<Action>)
      returns (r: Net)
    requires AsciiIsText(utf8) && Between(n, s) && OwnActs(opens) && OwnActs(answers)
    requires !s.b.closed && !AfterPass(Flip(s), opens).b.closed
    ensures Reaches(utf8, n, r) && Between(r, Flip(AfterRound(Flip(s), opens, answers)))
  {
    hide AsciiIsText, Between, Reaches, AfterPass, AfterRound, OwnActs;
    BetweenFlip(n, s);
    var n1 := PlayRound(utf8, FlipNet(n), Flip(s), opens, answers);
    r := FlipNet(n1);
    ReachFlip(utf8, n, n1);
    BetweenFlip(n1, AfterRound(Flip(s), opens, answers));
  }

  /** How k send slots are filled: unidirectional streams first, then bidirectional ones, then those of the peer. */
  predicate PopulatedTo(s: System, k: nat) {
    Populated(s, Min(k, IDS), if k < IDS then 0 else Min(k - IDS, IDS), if k < 2 * IDS then 0 else k - 2 * IDS)
  }

  lemma PopulateOne(utf8: seq<Byte> -> bool, n: Net, s: System, k: nat) returns (r: Net, s': System)
    requires AsciiIsText(utf8) && Between(n, s) && PopulatedTo(s, k) && k < s.a.limits.maxOpenStreams && k + 1 < 3 * IDS
    ensures Reaches(utf8, n, r) && Between(r, s') && PopulatedTo(s', k + 1)
    ensures s'.a.limits == s.a.limits && s'.b.limits == s.b.limits
  {
    hide AsciiIsText, Between, Reaches, AfterRound, AfterPass, Inv, OwnActs;
    BetweenInv(n, s);
    OwnBursts(0);
    var u, w, m := Min(k, IDS), if k < IDS then 0 else Min(k - IDS, IDS), if k < 2 * IDS then 0 else k - 2 * IDS;
    if k < IDS {
      var opens := RoundUni(s, u, w);
      r := PlayRound(utf8, n, s, opens, [AcceptUni]);
      RoundLimits(s, opens, [AcceptUni]);
      s' := AfterRound(s, opens, [AcceptUni]);
    } else if k < 2 * IDS {
      var opens, answers := RoundBi(s, u, w);
      r := PlayRound(utf8, n, s, opens, answers);
      RoundLimits(s, opens, answers);
      s' := AfterRound(s, opens, answers);
    } else {
      var opens := RoundPeer(s, u, w, m);
      r := PlayRoundB(utf8, n, s, opens, [AcceptBi]);
      RoundLimits(Flip(s), opens, [AcceptBi]);
      s' := Flip(AfterRound(Flip(s), opens, [AcceptBi]));
    }
  }

  lemma BetweenInv(n: Net, s: System)
    requires Between(n, s)
    ensures Inv(s) && s.a.limits.maxOpenStreams > 0 && s.b.limits.maxOpenStreams > 0
  {
    hide NetRel, Inv, Working, AllOk, WireOk;
    RelParts(n, s);
    WireOf(s);
    ValidOf(s.a);
    ValidOf(s.b);
  }

  lemma StartPopulated(server: bool, la: Limits, lb: Limits)
    requires Valid(la) && Valid(lb) && Suits(la, lb) && Suits(lb, la)
    ensures Between(NetOpening(server, la, lb), Opening(server, la, lb)) && PopulatedTo(Opening(server, la, lb), 0)
  {
    hide NetRel, Valid, Suits;
    OpeningRel(server, la, lb);
  }

  lemma PassLimits(s: System, acts: seq<Action>)
    ensures AfterPass(s, acts).a.limits == s.a.limits && AfterPass(s, acts).b.limits == s.b.limits
  {
    hide Run, Delivered, InTransit;
    var t := Flip(Posted(s, acts));
    DeliveredKeeps(t, InTransit(t));
  }

  lemma RoundLimits(s: System, opens: seq<Action>, answers: seq<Action>)
    ensures AfterRound(s, opens, answers).a.limits == s.a.limits && AfterRound(s, opens, answers).b.limits == s.b.limits
  {
    hide AfterPass;
    PassLimits(s, opens);
    PassLimits(Flip(AfterPass(s, opens)), answers);
  }

  lemma {:induction false} Populate(server: bool, la: Limits, lb: Limits, utf8: seq<Byte> -> bool, k: nat)
      returns (n: Net, s: System)
    requires Valid(la) && Valid(lb) && Suits(la, lb) && Suits(lb, la) && AsciiIsText(utf8)
    requires k <= la.maxOpenStreams && k < 3 * IDS
    ensures Reaches(utf8, NetOpening(server, la, lb), n) && Between(n, s) && PopulatedTo(s, k)
    ensures s.a.limits == la && s.b.limits == lb
  {
    hide AsciiIsText, Between, Reaches, PopulatedTo, Valid, Suits;
    var start := NetOpening(server, la, lb);
    if k == 0 {
      StartPopulated(server, la, lb);
      ReachSelf(utf8, start);
      n, s := start, Opening(server, la, lb);
    } else {
      n, s := Populate(server, la, lb, utf8, k - 1);
      var n1, s1 := PopulateOne(utf8, n, s, k - 1);
      ReachOn(utf8, start, n, n1);
      n, s := n1, s1;
    }
  }

  // ---- The open that is turned down ----

  /** With every send slot of e taken, one more stream of the peer ends the session with the longest reason. */
  lemma TurnsDown(e: Endpoint, j: StreamId, max: nat)
    requires Still(e) && OpenViolation(e, j, Bi).None? && j !in e.streams
    requires |e.streams| < e.limits.maxOpenStreams && |e.sendFlows| >= e.limits.maxOpenStreams
    ensures var r := Handled(e, [OpenBi(j), MaxStreamData(j, max)]);
            && r.outbound == [InitialCredit(e, j), ConnectionClose(3, Ascii(TOO_MANY))]
            && r.sent == e.sent && r.closed && r.limits == e.limits
  {
    hide Step, Counter, Known, Ascii, DirOf, Handled, Steady;
    StepForm(e, Receive(OpenBi(j), true, true));
    HandledTwo(e, OpenBi(j), MaxStreamData(j, max));
    ClosedReceives(Step(e, Receive(OpenBi(j), true, true)), MaxStreamData(j, max), true, true);
  }

  /** The state in which it has done so: its last words are queued, and b, open, has seen all but them. */
  predicate Refusing(s: System, j: StreamId) {
    && s.a.outbound == [InitialCredit(s.a, j), ConnectionClose(3, Ascii(TOO_MANY))]
    && !s.b.closed && s.seenByB == |s.a.sent|
  }

  lemma OpensOne(e: Endpoint) returns (j: StreamId)
    requires AllOk(e) && Still(e) && e.nextBi < IDS && |e.sendFlows| < e.limits.maxOpenStreams
    ensures var r := Flushed(Run(e, [OpenBiStream(true, true)]));
            Still(r) && r.sent == e.sent + [OpenBi(j), InitialCredit(e, j)]
  {
    hide AllOk, NewId, Step, DoOpenBi, Run, InitialCredit, NewReader;
    j := NextLocal(e, Bi);
    RunOne(e, OpenBiStream(true, true));
    StepForm(e, OpenBiStream(true, true));
    BiForm(e, j);
  }

  lemma PassRefused(s: System) returns (j: StreamId)
    requires Inv(s) && AtRest(s) && s.a.nextBi < IDS && |s.a.sendFlows| < s.a.limits.maxOpenStreams
    requires |s.b.streams| < s.b.limits.maxOpenStreams && |s.b.sendFlows| >= s.b.limits.maxOpenStreams
    ensures Refusing(Flip(AfterPass(s, [OpenBiStream(true, true)])), j)
  {
    hide Inv, AllOk, Run, Handled, OpenViolation, Ascii, AfterPass, Flushed, OwnActs;
    OkOfA(s);
    j := OpensOne(s.a);
    OwnBursts(j);
    var fs := [OpenBi(j), InitialCredit(s.a, j)];
    OpenArrives(s, [OpenBiStream(true, true)], j, Bi, fs);
    TurnsDown(s.b, j, s.a.limits.initialStreamWindow);
    PassIs(s, [OpenBiStream(true, true)], fs);
  }

  lemma PassRefusal(s: System, j: StreamId)
    requires Refusing(s, j) && s.b.limits.maxWsMessageSize < 3 + MAX_REASON
    ensures OpenToLast(Flip(Posted(s, []))) && !TransitFits(Flip(Posted(s, [])))
  {
    hide Step, Ascii;
    var t := Flip(Posted(s, []));
    TakesCredit(t.a, j, s.a.limits.initialStreamWindow);
    assert Delivered(t, 0) == t;
    assert Delivered(t, 1) == DeliverA(t, true, true);
    TooManyLength();
    assert t.b.sent[t.seenByA + 1] == ConnectionClose(3, Ascii(TOO_MANY));
  }

  lemma TooManyLength()
    ensures |Ascii(TOO_MANY)| == MAX_REASON
  {
  }

  /** From a full registry the next stream leads to a message that is too large. */
  lemma RefusalRejected(utf8: seq<Byte> -> bool, n: Net, s: System) returns (r: Net)
    requires AsciiIsText(utf8) && Between(n, s) && PopulatedTo(s, s.a.limits.maxOpenStreams)
             && s.a.limits.maxOpenStreams < 3 * IDS
    requires s.b.limits.maxWsMessageSize < 3 + MAX_REASON
    ensures Reaches(utf8, n, r) && TooLarge(FlipNet(r))
  {
    hide AsciiIsText, Between, Reaches, OpenToLast, Posted, AfterPass, TransitFits, Inv, Refusing, OwnActs, TooLarge;
    var acts := [OpenBiStream(true, true)];
    OwnBursts(0);
    BetweenInv(n, s);
    FlipInv(s);
    BetweenFlip(n, s);
    OpenIsFaultless(FlipNet(n), Flip(s));
    var j := PassRefused(Flip(s));
    var n1, stuck1 := Pass(utf8, FlipNet(n), Flip(s), acts);
    var s1 := Flip(AfterPass(Flip(s), acts));
    BetweenFlip(n1, AfterPass(Flip(s), acts));
    PassLimits(Flip(s), acts);
    PassRefusal(s1, j);
    var n2, stuck2 := Pass(utf8, FlipNet(n1), s1, []);
    r := n2;
    ReachFlip(utf8, n, n1);
    ReachOn(utf8, n, FlipNet(n1), r);
  }

  /** The run: the send slots of one side fill up, and the reason it then gives for closing is too long for the
      other. */
  lemma OversizeRun(la: Limits, lb: Limits, utf8: seq<Byte> -> bool, flipped: bool) returns (moves: seq<NetMove>)
    requires Valid(la) && Valid(lb) && Suits(la, lb) && Suits(lb, la) && AsciiIsText(utf8)
    requires Ours(la, lb, flipped).maxWsMessageSize < LongestHonest(Theirs(la, lb, flipped))
    ensures Native(moves) && MeetsOversize(la, lb, utf8, moves, flipped)
  {
    hide Native, NetGo, Between, Reaches, PopulatedTo, AsciiIsText, Suits, NetOpening, TooLarge, Valid;
    var ours, theirs := Ours(la, lb, flipped), Theirs(la, lb, flipped);
    LongOnlyWithoutSlots(ours, theirs);
    var n, s := Populate(!flipped, theirs, ours, utf8, theirs.maxOpenStreams);
    var r := RefusalRejected(utf8, n, s);
    ReachOn(utf8, NetOpening(!flipped, theirs, ours), n, r);
    moves := FromStart(la, lb, utf8, r, flipped);
  }

  /** A side meets a message that is too large. */
  predicate MeetsOversize(la: Limits, lb: Limits, utf8: seq<Byte> -> bool, moves: seq<NetMove>, flipped: bool) {
    var run := NetRun(la, lb, utf8, moves);
    TooLarge(if flipped then FlipNet(run) else run)
  }

  lemma FromStart(la: Limits, lb: Limits, utf8: seq<Byte> -> bool, r: Net, flipped: bool)
      returns (moves: seq<NetMove>)
    requires TooLarge(FlipNet(r))
    requires Reaches(utf8, NetOpening(!flipped, Theirs(la, lb, flipped), Ours(la, lb, flipped)), r)
    ensures Native(moves) && MeetsOversize(la, lb, utf8, moves, flipped)
  {
    hide Native, NetGo, TooLarge, NewSide;
    var n := NetStart(la, lb);
    if flipped {
      moves :| Native(moves) && NetGo(utf8, n, moves) == r;
    } else {
      assert NetOpening(true, lb, la) == FlipNet(n);
      ReachFlip(utf8, n, r);
      moves :| Native(moves) && NetGo(utf8, n, moves) == FlipNet(r);
    }
  }

  lemma LongOnlyWithoutSlots(ours: Limits, theirs: Limits)
    requires Valid(ours) && ours.maxWsMessageSize < LongestHonest(theirs)
    ensures theirs.maxOpenStreams < 3 * IDS && ours.maxWsMessageSize < 3 + MAX_REASON
  {
    assert |UNKNOWN_STREAM| == 29;
  }

  /** Between honest endpoints whose message limits take each other's batches, a message is rejected in some run if and
      only if one of those limits is below the longest closing frame that the other side queues; then the side with
      that limit rejects one, in some run of native sessions. */
  lemma RejectIff(la: Limits, lb: Limits, utf8: seq<Byte> -> bool)
    requires Valid(la) && Valid(lb) && Suits(la, lb) && Suits(lb, la) && AsciiIsText(utf8)
    ensures (exists moves, flipped :: MeetsOversize(la, lb, utf8, moves, flipped)) <==> !Compatible(la, lb)
    ensures forall flipped :: Ours(la, lb, flipped).maxWsMessageSize < LongestHonest(Theirs(la, lb, flipped)) ==>
              exists moves :: Native(moves) && MeetsOversize(la, lb, utf8, moves, flipped)
  {
    hide Valid, AsciiIsText, LongestHonest, NetRun, NetRel, TooLarge, Native, Suits;
    forall flipped | Ours(la, lb, flipped).maxWsMessageSize < LongestHonest(Theirs(la, lb, flipped))
      ensures exists moves :: Native(moves) && MeetsOversize(la, lb, utf8, moves, flipped)
    {
      var moves := OversizeRun(la, lb, utf8, flipped);
    }
    if Compatible(la, lb) {
      forall moves, flipped ensures !MeetsOversize(la, lb, utf8, moves, flipped) {
        var play := OverWebSocket(la, lb, utf8, moves);
      }
    } else {
      var flipped := la.maxWsMessageSize >= LongestHonest(lb);
      assert Ours(la, lb, flipped).maxWsMessageSize < LongestHonest(Theirs(la, lb, flipped));
    }
  }

  /** Reading such a message closes the session: with code 2 in a browser, without a code in a native session, where the
      transport rejects it first. */
  lemma TooLargeCloses(utf8: seq<Byte> -> bool, n: Net, native: bool, room: bool)
    requires TooLarge(n) && !n.a.broken
    ensures var r := NetMoveA(utf8, n, ReadMessage(native, room));
            r.a.e.closed && r.a.e.error == if native then n.a.e.error else Some(2)
  {
    hide Bytes, DecodeAll, Step;
    StepForm(n.a.e, if native then CloseSession else Reject(MessageTooLarge, room));
  }
}
