/** One endpoint alone cannot promise that its credits rise: a peer that sends data before it was given credit can have
    a grant overtake the initial credit. For which limits, and by which run. */
module GrantOrder {
  import opened VarInts
  import opened Frames
  import opened SessionLimits
  import opened Endpoints
  import opened Views
  import opened EndpointInvariant
  import opened EndpointTheorems
  import opened RegistryRuns
  import opened TwoParty
  import opened CreditOrder

  /** The frames that the endpoint has sent announce a credit that is not above the one before. */
  predicate Falls(server: bool, lim: Limits, schedule: seq<Action>, id: StreamId) {
    AllDecodable(schedule) && !Rising(id, Run(Fresh(server, lim), schedule).sent)
  }

  lemma TwoFalling(id: StreamId, first: nat, second: nat)
    requires second <= first
    ensures !Rising(id, [MaxStreamData(id, first), MaxStreamData(id, second)])
  {
    hide Announced;
    var log := [MaxStreamData(id, first), MaxStreamData(id, second)];
    assert log[..1] == [log[0]];
    AnnouncedCovers(id, log[..1], 0);
    assert IsCredit(log[1], id);
  }

  // ---- The run ----

  /** The stream is open, and its first credit waits in the queue. */
  predicate Awaiting(e: Endpoint, id: StreamId, c: nat) {
    && Fed(e, id, c) && !e.closed && e.pendingCredit == map[]
    && e.sent == [] && e.outbound == [MaxStreamData(id, e.limits.initialStreamWindow)]
  }

  lemma OpensFirst(server: bool, lim: Limits)
    requires Valid(lim)
    ensures var e := Fresh(server, lim);
            Awaiting(Run(e, [Receive(OpenUni(PeerUniId(e)), true, true)]), PeerUniId(e), 0)
  {
    hide Run, Step, ReceiveOpen, PeerUniId, DirOf, Counter, Known, OpenViolation;
    var e := Fresh(server, lim);
    var j := PeerUniId(e);
    NextPeerUniId(e);
    RunOne(e, Receive(OpenUni(j), true, true));
    StepForm(e, Receive(OpenUni(j), true, true));
    PlacedOpen(e, j, Uni);
  }

  /** Bytes short of the threshold are read, and nothing is granted. */
  lemma ReadsOn(e: Endpoint, id: StreamId, n: nat)
    requires Valid(e.limits) && Awaiting(e, id, 0) && n < e.limits.windowUpdateThreshold
    ensures Awaiting(Run(e, Feeding(id, n)), id, n)
  {
    hide Run, Feeding, Valid, Fed;
    FeedBytes(e, id, n);
  }

  /** The byte that reaches the threshold makes a grant pending. */
  lemma GrantDue(e: Endpoint, id: StreamId)
    requires Valid(e.limits) && Awaiting(e, id, e.limits.windowUpdateThreshold - 1)
    requires e.limits.initialStreamWindow + e.limits.windowUpdateThreshold <= MAX
    ensures var r := Run(e, OneByte(id));
            && r.sent == e.sent && r.outbound == e.outbound
            && r.pendingCredit == map[id := e.limits.initialStreamWindow + e.limits.windowUpdateThreshold]
  {
    hide Run, Taken, QueueCredit, DoConsume, Ripe, Fed, OneByte;
    OneByteRun(e, id);
    RipeIs(e, id);
    LastConsume(e, id);
    SlotTaken(Ripe(e, id), id, e.limits.initialStreamWindow + e.limits.windowUpdateThreshold);
    assert map[][id := e.limits.initialStreamWindow + e.limits.windowUpdateThreshold]
           == map[id := e.limits.initialStreamWindow + e.limits.windowUpdateThreshold];
  }

  /** The grant goes first, then the credit that was queued before it. */
  lemma BothSent(e: Endpoint, id: StreamId, first: nat, grant: nat)
    requires e.sent == [] && e.outbound == [MaxStreamData(id, first)] && e.pendingCredit == map[id := grant]
    ensures Run(e, [SendCredit(id), SendQueued]).sent == [MaxStreamData(id, grant), MaxStreamData(id, first)]
  {
    hide Run, Step, SameRole;
    RunTwo(e, SendCredit(id), SendQueued);
    StepForm(e, SendCredit(id));
    StepForm(DoSendCredit(e, id), SendQueued);
  }

  lemma OvertakingRun(server: bool, lim: Limits) returns (schedule: seq<Action>, id: StreamId)
    requires Valid(lim) && lim.initialStreamWindow + lim.windowUpdateThreshold <= MAX
    ensures Falls(server, lim, schedule, id)
  {
    hide Run, Feeding, OneByte, Awaiting, Rising, AllDecodable;
    var e0 := Fresh(server, lim);
    id := PeerUniId(e0);
    var open := [Receive(OpenUni(id), true, true)];
    var bytes := Feeding(id, lim.windowUpdateThreshold - 1);
    var send := [SendCredit(id), SendQueued];
    OpensFirst(server, lim);
    ReadsOn(Run(e0, open), id, lim.windowUpdateThreshold - 1);
    RunConcat(e0, open, bytes);
    RunConcat(e0, open + bytes, OneByte(id));
    RunConcat(e0, open + bytes + OneByte(id), send);
    schedule := open + bytes + OneByte(id) + send;
    Overtaking(Run(e0, open + bytes), id);
    AllSteps(id, lim.windowUpdateThreshold - 1);
  }

  lemma Overtaking(e: Endpoint, id: StreamId)
    requires Valid(e.limits) && Awaiting(e, id, e.limits.windowUpdateThreshold - 1)
    requires e.limits.initialStreamWindow + e.limits.windowUpdateThreshold <= MAX
    ensures !Rising(id, Run(Run(e, OneByte(id)), [SendCredit(id), SendQueued]).sent)
  {
    hide Run, OneByte, Rising, Fed;
    var first, grant := e.limits.initialStreamWindow, e.limits.initialStreamWindow + e.limits.windowUpdateThreshold;
    GrantDue(e, id);
    BothSent(Run(e, OneByte(id)), id, first, grant);
    TwoFalling(id, grant, first);
  }

  lemma AllSteps(id: StreamId, n: nat)
    requires id <= MAX
    ensures AllDecodable([Receive(OpenUni(id), true, true)] + Feeding(id, n) + OneByte(id)
                         + [SendCredit(id), SendQueued])
  {
    hide AllDecodable, Feeding, OneByte;
    var open, send := [Receive(OpenUni(id), true, true)], [SendCredit(id), SendQueued];
    assert AllDecodable(open) && AllDecodable(send) by { EndsDecodable(id); }
    FeedingDecodable(id, n);
    ByteDecodable(id);
    DecodableConcat(open, Feeding(id, n));
    DecodableConcat(open + Feeding(id, n), OneByte(id));
    DecodableConcat(open + Feeding(id, n) + OneByte(id), send);
  }

  lemma EndsDecodable(id: StreamId)
    requires id <= MAX
    ensures AllDecodable([Receive(OpenUni(id), true, true)]) && AllDecodable([SendCredit(id), SendQueued])
  {
  }

  // ---- No other limits ----

  /** A grant that does not fit the varint range is never due. */
  lemma NoGrantDue(e: Endpoint, id: StreamId, n: nat)
    requires AllOk(e) && e.limits.initialStreamWindow + e.limits.windowUpdateThreshold > MAX
    ensures DoConsume(e, id, n).pendingCredit == e.pendingCredit
  {
    assert StreamOk(e, id);
    hide StreamOk, AllOk, QueueCredit, SaturatingAdd;
    ReaderOf(e, id);
    hide Arrived, FinOnlyLast;
  }

  lemma {:induction false} NothingOvertakes(server: bool, lim: Limits, schedule: seq<Action>, id: StreamId)
    requires Valid(lim) && lim.initialStreamWindow + lim.windowUpdateThreshold > MAX
    ensures id !in Run(Fresh(server, lim), schedule).pendingCredit && NeverOvertakes(server, lim, schedule, id)
  {
    hide Step, AllOk, Valid;
    if schedule != [] {
      var front, a := schedule[..|schedule| - 1], schedule[|schedule| - 1];
      var e := Run(Fresh(server, lim), front);
      NothingOvertakes(server, lim, front, id);
      FreshKeeps(server, lim);
      RunKeeps(Fresh(server, lim), front);
      if id in Step(e, a).pendingCredit {
        PendingFrom(e, a, id);
        StepForm(e, a);
        NoGrantDue(e, id, a.n);
        assert false;
      }
    }
  }

  /** The limits for which some run of an endpoint sends falling credits: those whose first grant fits the varint
      range. */
  lemma GrantOvertakes(server: bool, lim: Limits)
    requires Valid(lim)
    ensures (exists schedule, id :: Falls(server, lim, schedule, id))
            <==> lim.initialStreamWindow + lim.windowUpdateThreshold <= MAX
  {
    hide Run, Rising, Valid, AllDecodable, NeverOvertakes, Log, Ordered;
    if lim.initialStreamWindow + lim.windowUpdateThreshold <= MAX {
      var schedule, id := OvertakingRun(server, lim);
      assert Falls(server, lim, schedule, id);
    } else {
      forall schedule, id ensures !Falls(server, lim, schedule, id) {
        NothingOvertakes(server, lim, schedule, id);
        RunOrder(server, lim, schedule, id);
        SentRises(Run(Fresh(server, lim), schedule), id);
      }
    }
  }
}
