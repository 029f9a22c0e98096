/** One side of the two-party system sends all it has queued, or handles all that is in transit to it. */
module Exchanges {
  import opened Frames
  import opened Endpoints
  import opened TwoParty

  function Flushed(e: Endpoint): (r: Endpoint) {
    e.(sent := e.sent + e.outbound, outbound := [])
  }

  function FlushA(s: System): (r: System) {
    s.(a := Flushed(s.a))
  }

  lemma FlushOne(s: System)
    ensures s.a.outbound == [] ==> FlushA(s) == s
    ensures s.a.outbound != [] ==> FlushA(ActA(s, SendQueued)) == FlushA(s)
  {
    hide Step, DoSendQueued, SameRole;
    StepForm(s.a, SendQueued);
    SendOne(s.a);
  }

  lemma SendOne(e: Endpoint)
    ensures e.outbound == [] ==> Flushed(e) == e
    ensures e.outbound != [] ==> Flushed(DoSendQueued(e)) == Flushed(e)
  {
    if e.outbound != [] { assert e.outbound == [e.outbound[0]] + e.outbound[1..]; }
  }

  lemma {:induction false} FlushInv(s: System)
    requires Inv(s)
    ensures Inv(FlushA(s))
    decreases |s.a.outbound|
  {
    hide Inv, FlushA, SameRole;
    FlushOne(s);
    if s.a.outbound != [] {
      ActInv(s, SendQueued);
      FlushInv(ActA(s, SendQueued));
    }
  }

  function Delivered(s: System, k: nat): (r: System) {
    if k == 0 then s else DeliverA(Delivered(s, k - 1), true, true)
  }

  lemma {:induction false} DeliveredOn(s: System, j: nat, k: nat)
    ensures Delivered(Delivered(s, j), k) == Delivered(s, j + k)
  {
    hide DeliverA;
    if k > 0 { DeliveredOn(s, j, k - 1); }
  }

  /** What is open later was open before, and each delivery is one frame. */
  lemma {:induction false} OpenBefore(s: System, j: nat, k: nat)
    requires j <= k && !Delivered(s, k).a.closed
    ensures !Delivered(s, j).a.closed
  {
    hide Step;
    if j < k { OpenBefore(s, j, k - 1); }
  }

  lemma {:induction false} DeliveredCounts(s: System, k: nat)
    requires k <= |s.b.sent| - s.seenByA && (k > 0 ==> !Delivered(s, k - 1).a.closed)
    ensures Delivered(s, k).b == s.b && Delivered(s, k).seenByA == s.seenByA + k && Delivered(s, k).seenByB == s.seenByB
  {
    hide Step, SameRole;
    if k > 0 {
      if k > 1 { OpenBefore(s, k - 2, k - 1); }
      DeliveredCounts(s, k - 1);
    }
  }

  function InTransit(s: System): (k: nat) {
    if s.seenByA <= |s.b.sent| then |s.b.sent| - s.seenByA else 0
  }

  lemma NoneDelivered(s: System)
    ensures Delivered(s, 0) == s
  {
  }

  lemma {:induction false} ClosedFor(s: System, k: nat)
    requires s.a.closed
    ensures Delivered(s, k) == s
  {
    hide Step;
    if k > 0 { ClosedFor(s, k - 1); }
  }

  lemma {:induction false} DeliveredKeeps(s: System, k: nat)
    ensures Delivered(s, k).a.limits == s.a.limits && Delivered(s, k).b == s.b
  {
    hide Step;
    if k > 0 { DeliveredKeeps(s, k - 1); }
  }

  lemma StaysClosed(e: Endpoint, f: Frame)
    ensures !Step(e, Receive(f, true, true)).closed ==> !e.closed
  {
    hide Step;
  }

  // ---- An open that is taken ----

  lemma OpenQueued(e: Endpoint, j: StreamId)
    ensures var r := Enqueue(PassPeerFrontier(e, j), InitialCredit(e, j));
            r == e.(nextPeerUni := r.nextPeerUni, nextPeerBi := r.nextPeerBi,
                    outbound := e.outbound + [InitialCredit(e, j)])
  {
    hide DirOf, Counter, Steady, InitialCredit;
    if DirOf(j).Uni? {
      assert PassPeerFrontier(e, j) == e.(nextPeerUni := Counter(j) + 1);
    } else {
      assert PassPeerFrontier(e, j) == e.(nextPeerBi := Counter(j) + 1);
    }
  }

  lemma HandOverFields(e: Endpoint, j: StreamId)
    ensures HandOver(e, j) ==
            if DirOf(j).Uni? then
              e.(streams := e.streams[j := RecvState(false, 0, e.limits.initialStreamWindow)],
                 readers := e.readers[j := NewReader(e)], acceptUni := e.acceptUni + [j])
            else
              e.(streams := e.streams[j := RecvState(false, 0, e.limits.initialStreamWindow)],
                 readers := e.readers[j := NewReader(e)], acceptBi := e.acceptBi + [j],
                 sendFlows := e.sendFlows[j := SendFlow(0, 0, [], false)], writers := e.writers + {j})
  {
    hide DirOf, Steady, NewReader;
  }

  /** An endpoint that an open does not close hands the stream over. */
  lemma TakenForm(e: Endpoint, j: StreamId, dir: Dir)
    requires !ReceiveOpen(e, j, dir, true, true).closed
    ensures ReceiveOpen(e, j, dir, true, true) == HandOver(Enqueue(PassPeerFrontier(e, j), InitialCredit(e, j)), j)
    ensures j !in e.streams && (DirOf(j).Bi? ==> j !in e.sendFlows)
  {
    hide OpenViolation, Admit, HandOver, DirOf, Counter, Enqueue, ProtocolError, InitialCredit, Steady;
    hide PassPeerFrontier;
    if OpenViolation(e, j, dir).Some? { ErrorCloses(e, 1, OpenViolation(e, j, dir).value); }
    AdmitForm(PassPeerFrontier(e, j), j);
    PassedFields(e, j);
  }

  lemma PassedFields(e: Endpoint, j: StreamId)
    ensures var r := PassPeerFrontier(e, j);
            r.streams == e.streams && r.sendFlows == e.sendFlows && InitialCredit(r, j) == InitialCredit(e, j)
  {
    hide DirOf, Counter, Steady;
    if DirOf(j).Uni? {
      assert PassPeerFrontier(e, j) == e.(nextPeerUni := Counter(j) + 1);
    } else {
      assert PassPeerFrontier(e, j) == e.(nextPeerBi := Counter(j) + 1);
    }
  }

  lemma ErrorCloses(e: Endpoint, code: nat, reason: string)
    ensures ProtocolError(e, code, reason, true).closed
  {
  }

  lemma AdmitForm(e: Endpoint, j: StreamId)
    requires !Admit(e, j, true, true).closed
    ensures Admit(e, j, true, true) == HandOver(Enqueue(e, InitialCredit(e, j)), j)
    ensures j !in e.streams && (DirOf(j).Bi? ==> j !in e.sendFlows)
  {
    hide HandOver, HandOverViolation, DirOf, Enqueue, ProtocolError, InitialCredit, Steady, SameWire;
    ErrorCloses(e, 3, "too many open streams");
    ErrorCloses(e, 1, "duplicate stream open");
    if HandOverViolation(e, j).Some? {
      ErrorCloses(Enqueue(e, InitialCredit(e, j)), 3, HandOverViolation(e, j).value);
    }
    NoDuplicate(e, j);
  }

  lemma NoDuplicate(e: Endpoint, j: StreamId)
    ensures HandOverViolation(e, j).None? && DirOf(j).Bi? ==> j !in e.sendFlows
  {
    hide DirOf;
  }
}
