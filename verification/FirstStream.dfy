/** Two endpoints of any limits, and the first unidirectional stream between them: opened, announced, given credit and
    written to. */
module FirstStream {
  import opened VarInts
  import opened Frames
  import opened SessionLimits
  import opened Endpoints
  import opened TwoParty

  /** The first unidirectional stream of a side. */
  function FirstUni(server: bool): (j: StreamId) {
    if server then 3 else 2
  }

  lemma FirstUniId(server: bool)
    ensures var j := FirstUni(server);
            DirOf(j) == Uni && ByServer(j) == server && Counter(j) == 0 && NewId(0, server, Uni) == Some(j)
  {
  }

  /** The peer opens it and a hears of it, then a's credit reaches the peer. */
  const ANNOUNCING: seq<Move> := [Act(false, OpenUniStream(true)), Act(false, SendQueued), Deliver(true, true, true)]
  const CREDITING: seq<Move> := [Act(true, SendQueued), Deliver(false, true, true)]

  lemma OpenSent(server: bool, lim: Limits)
    requires Valid(lim)
    ensures var b, j := Step(Step(Fresh(server, lim), OpenUniStream(true)), SendQueued), FirstUni(server);
            && b.sent == [OpenUni(j)] && b.outbound == [] && b.sendFlows == map[j := SendFlow(0, 0, [], false)]
            && !b.closed && b.limits == lim
  {
    hide NewId, Step, FirstUni, SameRole;
    var e, j := Fresh(server, lim), FirstUni(server);
    FirstUniId(server);
    StepForm(e, OpenUniStream(true));
    var b := DoOpenUni(e, true);
    assert b.outbound == [OpenUni(j)] && b.sendFlows == map[j := SendFlow(0, 0, [], false)];
    StepForm(b, SendQueued);
  }

  lemma FirstTaken(server: bool, lim: Limits, queued: bool)
    requires Valid(lim)
    ensures var j := FirstUni(!server);
            var a := HandleFrame(Fresh(server, lim), OpenUni(j), queued, true);
            && a.sent == [] && a.limits == lim && !a.closed && a.pendingCredit == map[]
            && a.outbound == (if queued then [MaxStreamData(j, lim.initialStreamWindow)] else [])
            && a.streams == map[j := RecvState(false, 0, lim.initialStreamWindow)]
            && a.readers == map[j := Reader([], [], 0, lim.initialStreamWindow, false, false, [], false)]
  {
    hide DirOf, ByServer, Counter, ProtocolError, FirstUni;
    FirstUniId(!server);
  }

  lemma FirstAnswered(server: bool, lim: Limits)
    requires Valid(lim)
    ensures var j := FirstUni(!server);
            var a := Step(Step(Fresh(server, lim), Receive(OpenUni(j), true, true)), SendQueued);
            && a.sent == [MaxStreamData(j, lim.initialStreamWindow)] && a.limits == lim && !a.closed
            && a.streams == map[j := RecvState(false, 0, lim.initialStreamWindow)]
            && a.readers == map[j := Reader([], [], 0, lim.initialStreamWindow, false, false, [], false)]
  {
    hide Step, HandleFrame, Valid, SameRole;
    var j := FirstUni(!server);
    FirstTaken(server, lim, true);
    StepForm(Fresh(server, lim), Receive(OpenUni(j), true, true));
    StepForm(HandleFrame(Fresh(server, lim), OpenUni(j), true, true), SendQueued);
  }

  lemma CreditHeard(b: Endpoint, j: StreamId, max: nat)
    requires !b.closed && b.sendFlows == map[j := SendFlow(0, 0, [], false)]
    ensures var r := Step(b, Receive(MaxStreamData(j, max), true, true));
            && r.sent == b.sent && r.outbound == b.outbound && r.limits == b.limits
            && j in r.sendFlows && r.sendFlows[j] == SendFlow(max, 0, [], false)
  {
    hide Step, SameRole;
    StepForm(b, Receive(MaxStreamData(j, max), true, true));
  }

  /** Stream j of b holds k one-byte events that a has not read, and b has the rest of its credit. */
  predicate Piled(s: System, j: StreamId, k: nat) {
    && !s.a.closed
    && j in s.a.streams && s.a.streams[j] == RecvState(false, k, s.a.limits.initialStreamWindow)
    && j in s.a.readers && |s.a.readers[j].queue| == k
    && j in s.b.sendFlows && s.b.sendFlows[j] == SendFlow(s.a.limits.initialStreamWindow, k, [], false)
    && s.b.outbound == [] && s.seenByA == |s.b.sent|
  }

  lemma FirstStreamCredited(server: bool, la: Limits, lb: Limits)
    requires Valid(la) && Valid(lb)
    ensures var s := Play(Opening(server, la, lb), ANNOUNCING + CREDITING);
            Piled(s, FirstUni(!server), 0) && s.a.limits == la && s.b.limits == lb
  {
    hide Step, Valid, Play, FirstUni;
    var s0, j := Opening(server, la, lb), FirstUni(!server);
    OpenSent(!server, lb);
    FirstAnswered(server, la);
    var b := Step(Step(s0.b, OpenUniStream(true)), SendQueued);
    var s3 := System(Step(s0.a, Receive(OpenUni(j), true, true)), b, 1, 0);
    CreditHeard(b, j, la.initialStreamWindow);
    PlayConcat(s0, ANNOUNCING, CREDITING);
    PlayThree(s0, ANNOUNCING[0], ANNOUNCING[1], ANNOUNCING[2]);
    assert ANNOUNCING == [ANNOUNCING[0], ANNOUNCING[1], ANNOUNCING[2]] && CREDITING == [CREDITING[0], CREDITING[1]];
    assert Play(s0, ANNOUNCING) == s3;
    PlayTwo(s3, CREDITING[0], CREDITING[1]);
  }

  // ---- Writing to it ----

  /** The peer writes data and hands it to the transport. */
  function Writing(j: StreamId, data: seq<Byte>): (moves: seq<Move>) {
    [Act(false, Reserve(j, data)), Act(false, Commit(j)), Act(false, SendQueued)]
  }

  function Wrote(b: Endpoint, j: StreamId, data: seq<Byte>): (r: Endpoint) {
    DoSendQueued(DoCommit(DoReserve(b, j, data), j))
  }

  lemma WritingPlayed(s: System, j: StreamId, data: seq<Byte>)
    ensures Play(s, Writing(j, data)) == s.(b := Wrote(s.b, j, data))
  {
    hide Step, DoReserve, DoCommit, DoSendQueued, Play, SameRole;
    PlayThree(s, Act(false, Reserve(j, data)), Act(false, Commit(j)), Act(false, SendQueued));
    StepForm(s.b, Reserve(j, data));
    StepForm(DoReserve(s.b, j, data), Commit(j));
    StepForm(DoCommit(DoReserve(s.b, j, data), j), SendQueued);
  }

  lemma DataWritten(b: Endpoint, j: StreamId, data: seq<Byte>, max: nat, k: nat)
    requires j in b.sendFlows && b.sendFlows[j] == SendFlow(max, k, [], false) && b.outbound == []
    requires 0 < |data| <= MaxChunk(b.limits) && k + |data| <= max
    ensures var r := Wrote(b, j, data);
            && r.sent == b.sent + [Stream(j, data, false)] && r.outbound == [] && r.limits == b.limits
            && j in r.sendFlows && r.sendFlows[j] == SendFlow(max, k + |data|, [], false)
  {
    assert data[..|data|] == data;
    var f := Stream(j, data, false);
    assert DoCommit(DoReserve(b, j, data), j).outbound == [f];
  }
}
