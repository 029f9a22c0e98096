/** Runs of the two sides over the WebSocket, built by passes: one side acts, its writer sends all that is queued, and
    the other side reads and handles all of it. */
module NetRounds {
  import opened VarInts
  import opened Frames
  import opened SessionLimits
  import opened Endpoints
  import opened EndpointTheorems
  import opened WriterLoop
  import opened Transmission
  import opened TwoParty
  import opened Exchanges
  import opened HonestClosings
  import opened WireSystem

  // ---- What can be reached ----

  /** Steps of native sessions, which wait until the outbound queue takes a frame. */
  predicate Waiting(st: SideStep) {
    match st
    case Perform(action) =>
      (action.OpenUniStream? ==> action.queued) && (action.OpenBiStream? ==> action.queued && action.credited)
    case HandleNext(queued, _) => queued
    case _ => true
  }

  predicate Native(moves: seq<NetMove>) {
    forall i :: 0 <= i < |moves| ==> Waiting(moves[i].step)
  }

  /** What native sessions can come to. */
  ghost predicate Reaches(utf8: seq<Byte> -> bool, n: Net, r: Net) {
    exists moves :: Native(moves) && NetGo(utf8, n, moves) == r
  }

  lemma {:induction false} GoConcat(utf8: seq<Byte> -> bool, n: Net, xs: seq<NetMove>, ys: seq<NetMove>)
    ensures NetGo(utf8, n, xs + ys) == NetGo(utf8, NetGo(utf8, n, xs), ys)
    decreases |ys|
  {
    hide NetStep;
    if ys == [] {
      assert xs + ys == xs;
    } else {
      GoConcat(utf8, n, xs, ys[..|ys| - 1]);
      assert (xs + ys)[..|xs + ys| - 1] == xs + ys[..|ys| - 1];
    }
  }

  lemma ReachSelf(utf8: seq<Byte> -> bool, n: Net)
    ensures Reaches(utf8, n, n)
  {
    assert NetGo(utf8, n, []) == n;
  }

  lemma ReachStep(utf8: seq<Byte> -> bool, n: Net, st: SideStep)
    requires Waiting(st)
    ensures Reaches(utf8, n, NetMoveA(utf8, n, st))
  {
    hide NetMoveA, Waiting;
    var m := NetMove(true, st);
    assert [m][..0] == [];
    assert NetGo(utf8, n, []) == n;
    assert NetGo(utf8, n, [m]) == NetStep(utf8, n, m);
  }

  lemma ReachOn(utf8: seq<Byte> -> bool, n: Net, m: Net, r: Net)
    requires Reaches(utf8, n, m) && Reaches(utf8, m, r)
    ensures Reaches(utf8, n, r)
  {
    hide NetGo, Waiting;
    var xs :| Native(xs) && NetGo(utf8, n, xs) == m;
    var ys :| Native(ys) && NetGo(utf8, m, ys) == r;
    GoConcat(utf8, n, xs, ys);
  }

  /** The same moves by the other side. */
  function Exchanged(moves: seq<NetMove>): (r: seq<NetMove>)
    ensures |r| == |moves|
  {
    seq(|moves|, i requires 0 <= i < |moves| => moves[i].(byA := !moves[i].byA))
  }

  lemma {:induction false} GoFlip(utf8: seq<Byte> -> bool, n: Net, moves: seq<NetMove>)
    ensures NetGo(utf8, FlipNet(n), Exchanged(moves)) == FlipNet(NetGo(utf8, n, moves))
    decreases |moves|
  {
    hide NetMoveA;
    if moves != [] {
      GoFlip(utf8, n, moves[..|moves| - 1]);
      assert Exchanged(moves)[..|moves| - 1] == Exchanged(moves[..|moves| - 1]);
    }
  }

  lemma ExchangedNative(moves: seq<NetMove>)
    requires Native(moves)
    ensures Native(Exchanged(moves))
  {
    hide Waiting;
  }

  lemma ReachFlip(utf8: seq<Byte> -> bool, n: Net, r: Net)
    requires Reaches(utf8, FlipNet(n), r)
    ensures Reaches(utf8, n, FlipNet(r))
  {
    hide NetGo, Exchanged, Native;
    var moves :| Native(moves) && NetGo(utf8, FlipNet(n), moves) == r;
    ExchangedNative(moves);
    GoFlip(utf8, FlipNet(n), moves);
    assert FlipNet(FlipNet(n)) == n;
  }

  // ---- Sending all that is queued ----

  /** The writer is at work, and only frames wait for it. */
  predicate Working(w: Writer) {
    w.running && !w.closeSent && forall i :: w.done <= i < |w.log| ==> w.log[i].FrameCmd?
  }

  /** With a sink that takes everything, the writer goes on. */
  lemma FrameSent(lim: Limits, w: Writer, item: Item)
    requires w.running && !w.closeSent
    ensures var r := OnFrame(lim, w, item, true, true);
            r.running && !r.closeSent && r.taken == w.taken + [item] && r.log == w.log && r.done == w.done
  {
    hide Weight, EncodeFrame;
  }

  lemma CommandSent(lim: Limits, w: Writer)
    requires Working(w) && w.done < |w.log|
    ensures var r := Turn(lim, w, Take(true, true));
            Working(r) && |r.taken| > |w.taken| && r.log == w.log && r.done == w.done + 1
  {
    hide OnFrame;
    FrameSent(lim, w.(done := w.done + 1), Item(w.log[w.done].frame, true));
  }

  lemma WriteOnce(utf8: seq<Byte> -> bool, n: Net, s: System)
    requires NetRel(n, s) && Working(n.a.w) && n.a.w.done < |n.a.w.log|
    ensures var r := NetMoveA(utf8, n, Write(true, true));
            && NetRel(r, ActA(s, SendQueued)) && s.a.outbound != []
            && r.b == n.b && r.a.got == n.a.got && r.a.inbox == n.a.inbox
            && Working(r.a.w) && r.a.w.log == n.a.w.log && r.a.w.done == n.a.w.done + 1
  {
    hide Inv, Modest, SideOk, ChannelOk, Step, NetRel, Turn, Working, DoSendQueued, SameRole;
    RelParts(n, s);
    TakesFrames(s);
    CommandSent(n.a.e.limits, n.a.w);
    WriteOk(n.a, true, true);
    var r := Written(n.a, Take(true, true), SendQueued);
    StepForm(n.a.e, SendQueued);
    SomethingQueued(n.a);
    SimWrite(n, s, r, SendQueued);
  }

  lemma SomethingQueued(x: Side)
    requires SideOk(x) && Working(x.w) && x.w.done < |x.w.log|
    ensures x.e.outbound != [] && DoSendQueued(x.e) != x.e
  {
    hide WriterInv, QueuedFrames, FramesOf;
    HeadQueued(x.w);
    assert |DoSendQueued(x.e).sent| == |x.e.sent| + 1;
  }

  lemma NothingWaits(x: Side)
    requires SideOk(x) && Working(x.w) && x.w.done >= |x.w.log|
    ensures x.e.outbound == []
  {
    hide WriterInv, FramesOf;
    assert x.w.log[x.w.done..] == [];
  }

  /** The writer takes one frame after the other until none is left. */
  lemma {:induction false} FlushAll(utf8: seq<Byte> -> bool, n: Net, s: System) returns (r: Net)
    requires NetRel(n, s) && Working(n.a.w)
    ensures Reaches(utf8, n, r) && NetRel(r, FlushA(s))
    ensures r.b == n.b && r.a.got == n.a.got && r.a.inbox == n.a.inbox && Working(r.a.w) && r.a.w.done >= |r.a.w.log|
    decreases |n.a.w.log| - n.a.w.done
  {
    hide NetRel, Working, Reaches, FlushA, NetMoveA, ActA;
    FlushOne(s);
    if n.a.w.done < |n.a.w.log| {
      var n1 := NetMoveA(utf8, n, Write(true, true));
      WriteOnce(utf8, n, s);
      ReachStep(utf8, n, Write(true, true));
      r := FlushAll(utf8, n1, ActA(s, SendQueued));
      ReachOn(utf8, n, n1, r);
    } else {
      r := n;
      FlushedAlready(n, s);
      ReachSelf(utf8, n);
    }
  }

  lemma FlushedAlready(n: Net, s: System)
    requires NetRel(n, s) && Working(n.a.w) && n.a.w.done >= |n.a.w.log|
    ensures s.a.outbound == []
  {
    hide Inv, Modest, SideOk, ChannelOk, NetRel, Working;
    RelParts(n, s);
    NothingWaits(n.a);
  }

  // ---- Acting ----

  lemma FramesQueue(lim: Limits, w: Writer, fs: seq<Frame>)
    requires Working(w) && w.done <= |w.log| && FramesOk(lim, fs)
    ensures Working(w.(log := w.log + Cmds(fs)))
  {
    hide FrameOk, Fits, Header;
    forall i | 0 <= i < |fs| ensures Cmds(fs)[i].FrameCmd? { FrameEncodes(lim, fs[i]); }
  }

  /** What an endpoint does leaves its writer at work. */
  lemma StillWorking(x: Side, a: Action)
    requires SideOk(x) && Working(x.w) && !OfWriter(a) && WireOk(Step(x.e, a))
    ensures Working(Performed(x, a).w)
  {
    hide Step, Working, FramesOk, Cmds, WriterInv, QueuedFrames, FramesOf, WireOk;
    AppendsOnly(x.e, a);
    NewFramesOk(x.e, Step(x.e, a));
    FramesQueue(x.e.limits, x.w, Step(x.e, a).outbound[|x.e.outbound|..]);
  }

  lemma PerformStep(utf8: seq<Byte> -> bool, n: Net, s: System, a: Action)
    requires NetRel(n, s) && Working(n.a.w) && !Inbound(a) && !OfWriter(a) && Waiting(Perform(a))
    ensures var r := NetMoveA(utf8, n, Perform(a));
            && Reaches(utf8, n, r) && NetRel(r, ActA(s, a)) && r.b == n.b
            && r.a.got == n.a.got && r.a.inbox == n.a.inbox && Working(r.a.w)
  {
    hide Inv, Modest, SideOk, ChannelOk, Step, NetRel, Reaches, Working, WireOk, AllOk;
    SimPerform(n, s, a);
    ReachStep(utf8, n, Perform(a));
    RelParts(n, s);
    RelParts(n.(a := Performed(n.a, a)), ActA(s, a));
    WireOf(ActA(s, a));
    StillWorking(n.a, a);
  }

  // ---- Reading all that was sent ----

  lemma HandleStep(utf8: seq<Byte> -> bool, n: Net, s: System)
    requires NetRel(n, s) && Working(n.a.w) && n.a.inbox != []
    ensures var r := NetMoveA(utf8, n, HandleNext(true, true));
            && Reaches(utf8, n, r) && NetRel(r, DeliverA(s, true, true)) && r.b == n.b
            && r.a.got == n.a.got && r.a.inbox == n.a.inbox[1..] && Working(r.a.w)
  {
    hide Inv, Modest, SideOk, ChannelOk, Step, NetRel, Reaches, Working, WireOk, AllOk, DeliverA;
    SimHandle(n, s, true, true);
    ReachStep(utf8, n, HandleNext(true, true));
    RelParts(n, s);
    var a := Receive(n.a.inbox[0], true, true);
    RelParts(n.(a := Performed(n.a, a).(inbox := n.a.inbox[1..])), DeliverA(s, true, true));
    WireOf(DeliverA(s, true, true));
    StillWorking(n.a, a);
  }

  /** Handle every frame of the inbox. */
  lemma {:induction false} HandleAll(utf8: seq<Byte> -> bool, n: Net, s: System) returns (r: Net)
    requires NetRel(n, s) && Working(n.a.w)
    ensures Reaches(utf8, n, r) && NetRel(r, Delivered(s, |n.a.inbox|))
    ensures r.b == n.b && r.a.got == n.a.got && r.a.inbox == [] && Working(r.a.w)
    decreases |n.a.inbox|
  {
    hide NetRel, Working, Reaches, NetMoveA, DeliverA;
    if n.a.inbox == [] {
      r := n;
      ReachSelf(utf8, n);
    } else {
      var n1 := NetMoveA(utf8, n, HandleNext(true, true));
      HandleStep(utf8, n, s);
      r := HandleAll(utf8, n1, DeliverA(s, true, true));
      ReachOn(utf8, n, n1, r);
      assert Delivered(s, 0) == s && Delivered(s, 1) == DeliverA(Delivered(s, 0), true, true);
      DeliveredOn(s, 1, |n1.a.inbox|);
    }
  }

  lemma ReadStep(utf8: seq<Byte> -> bool, n: Net, s: System)
    requires AsciiIsText(utf8) && NetRel(n, s) && n.a.inbox == [] && n.a.got < |n.b.w.sink| && !n.a.e.closed
    requires Working(n.a.w) && Working(n.b.w) && !TooLarge(n)
    ensures var r := NetMoveA(utf8, n, ReadMessage(true, true));
            && Reaches(utf8, n, r) && NetRel(r, s) && r.b == n.b
            && r.a.got == n.a.got + 1 && Working(r.a.w)
            && (forall f :: f in r.a.inbox ==> Fitting(n.a.e.limits.maxWsMessageSize, f))
  {
    hide Inv, Modest, SideOk, ChannelOk, NetRel, AsciiIsText, DecodeAll, Bytes, FramesOf, Performed, WireOk, AllOk;
    hide Working;
    hide Fitting, Reaches;
    RelParts(n, s);
    NotClosing(n.b, n.a.got);
    NotBroken(n.a, n.b, s.seenByA);
    SimRead(utf8, n, s, true, true);
    ReachStep(utf8, n, ReadMessage(true, true));
    var m := n.b.w.sink[n.a.got];
    if m.Binary? {
      WireOf(s);
      ValidOf(s.b);
      Readable(utf8, n.b, n.a.got, n.a.e.limits.maxWsMessageSize);
      FramesFit(n.a.e.limits.maxWsMessageSize, m);
    }
  }

  lemma NotClosing(x: Side, k: nat)
    requires SideOk(x) && Working(x.w) && k < |x.w.sink|
    ensures !x.w.sink[k].Closing?
  {
    hide MsgFits, BatchFits, Sent, Picked, QueuedFrames, FramesOf;
  }

  lemma FramesFit(size: nat, m: Msg)
    requires m.Binary? && FittingMsg(size, m)
    ensures forall f :: f in FramesOf(m.items) ==> Fitting(size, f)
  {
    hide Fitting;
  }

  /** A writer with nothing left to take has sent every frame. */
  lemma AllSent(x: Side)
    requires SideOk(x) && Working(x.w) && x.w.done >= |x.w.log|
    ensures FramesOf(Sent(x.w.sink)) == x.e.sent
  {
    hide MsgFits, BatchFits, Sent, Picked, QueuedFrames, FramesOf, QuietAfterClose;
    assert Sent(x.w.sink) + [] == Sent(x.w.sink);
  }

  /** As long as frames are in transit, there is a message to read. */
  lemma MoreToRead(n: Net, s: System)
    requires NetRel(n, s) && Working(n.b.w) && n.b.w.done >= |n.b.w.log|
    requires n.a.inbox == [] && !n.a.e.closed && s.seenByA < |s.b.sent|
    ensures n.a.got < |n.b.w.sink|
  {
    hide Inv, Modest, SideOk, NetRel, Working, Sent, FramesOf;
    RelParts(n, s);
    AllSent(n.b);
    assert n.b.w.sink[..|n.b.w.sink|] == n.b.w.sink;
  }

  lemma InboxInTransit(n: Net, s: System)
    requires NetRel(n, s) && !s.a.closed
    ensures s.seenByA + |n.a.inbox| <= |s.b.sent| && s.b.sent[s.seenByA..s.seenByA + |n.a.inbox|] == n.a.inbox
  {
    hide Inv, Modest, SideOk, NetRel, Sent, FramesOf;
    RelParts(n, s);
    Carries(n.b, n.a.got);
  }

  /** In transit to a there are only frames that its message limit takes. */
  predicate TransitFits(s: System) {
    && s.seenByA <= |s.b.sent|
    && forall i :: s.seenByA <= i < |s.b.sent| ==> Fitting(s.a.limits.maxWsMessageSize, s.b.sent[i])
  }

  /** Open until the last frame in transit, and perhaps closed by that one. */
  predicate OpenToLast(s: System) {
    InTransit(s) > 0 ==> !Delivered(s, InTransit(s) - 1).a.closed
  }

  lemma OpenParts(s: System, k: nat)
    requires OpenToLast(s) && 0 < k <= InTransit(s)
    ensures !s.a.closed && !Delivered(s, k - 1).a.closed
    ensures InTransit(Delivered(s, k)) == InTransit(s) - k && OpenToLast(Delivered(s, k))
    ensures Delivered(s, k).b == s.b && Delivered(s, k).seenByA == s.seenByA + k
  {
    hide Delivered;
    OpenBefore(s, k - 1, InTransit(s) - 1);
    OpenBefore(s, 0, k - 1);
    assert Delivered(s, 0) == s by { NoneDelivered(s); }
    DeliveredCounts(s, k);
    if k < InTransit(s) { DeliveredOn(s, k, InTransit(s) - k - 1); }
  }

  lemma FitsTogether(s: System, s': System, k: nat)
    requires s.seenByA + k <= |s.b.sent| && s'.b == s.b && s'.seenByA == s.seenByA + k && s'.a.limits == s.a.limits
    requires TransitFits(s')
    requires forall f :: f in s.b.sent[s.seenByA..s.seenByA + k] ==> Fitting(s.a.limits.maxWsMessageSize, f)
    ensures TransitFits(s)
  {
    hide Fitting;
    forall i | s.seenByA <= i < |s.b.sent| ensures Fitting(s.a.limits.maxWsMessageSize, s.b.sent[i]) {
      if i < s.seenByA + k {
        assert s.b.sent[i] == s.b.sent[s.seenByA..s.seenByA + k][i - s.seenByA];
      }
    }
  }

  /** A side that no error has closed has queued no closing frame, and no message of it is too large. */
  lemma FaultlessFits(n: Net, s: System)
    requires NetRel(n, s) && s.b.error.None?
    ensures !TooLarge(n)
  {
    hide Inv, Modest, SideOk, ChannelOk, Valid, Bytes, MsgFits, FrameOk, AllOk;
    RelParts(n, s);
    if n.a.got < |n.b.w.sink| && n.b.w.sink[n.a.got].Binary? {
      WireOf(s);
      ValidOf(s.b);
      HeldFrames(n.b, n.a.got);
      var m, size := n.b.w.sink[n.a.got], s.a.limits.maxWsMessageSize;
      forall k | 0 <= k < |m.items| ensures Fitting(size, m.items[k].frame) { NoClosing(s.b, m.items[k].frame); }
      MsgWithin(n.b, n.a.got);
      MessageFits(s.b.limits, m, size);
    }
  }

  /** Read message after message: either one of them is too large, or every frame sent is delivered, up to one that
      closes the session. */
  lemma {:induction false} ReadAll(utf8: seq<Byte> -> bool, n: Net, s: System) returns (r: Net, stuck: bool)
    requires AsciiIsText(utf8) && NetRel(n, s) && n.a.inbox == []
    requires Working(n.a.w) && Working(n.b.w) && n.b.w.done >= |n.b.w.log|
    ensures Reaches(utf8, n, r) && r.b == n.b && (s.b.error.None? ==> !stuck)
    ensures if stuck then TooLarge(r)
            else NetRel(r, Delivered(s, InTransit(s))) && r.a.inbox == [] && Working(r.a.w)
    ensures !stuck && OpenToLast(s) ==> TransitFits(s)
    decreases |n.b.w.sink| - n.a.got
  {
    hide NetRel, Working, Reaches, NetMoveA, Delivered, AsciiIsText, TooLarge, Fitting, OpenToLast;
    r, stuck := n, false;
    SeenInRange(n, s);
    if InTransit(s) == 0 {
      NoneDelivered(s);
      ReachSelf(utf8, n);
      return;
    }
    if s.a.closed {
      ClosedNow(s);
      ReachSelf(utf8, n);
      return;
    }
    SameEnds(n, s);
    MoreToRead(n, s);
    if TooLarge(n) {
      if s.b.error.None? { FaultlessFits(n, s); }
      ReachSelf(utf8, n);
      stuck := true;
      return;
    }
    var n1 := NetMoveA(utf8, n, ReadMessage(true, true));
    ReadStep(utf8, n, s);
    InboxInTransit(n1, s);
    var k := |n1.a.inbox|;
    var n2 := HandleAll(utf8, n1, s);
    ReachOn(utf8, n, n1, n2);
    var s2 := Delivered(s, k);
    DeliveredKeeps(s, k);
    r, stuck := ReadAll(utf8, n2, s2);
    ReachOn(utf8, n, n2, r);
    if !stuck {
      RestDelivered(s, k);
      if OpenToLast(s) {
        if k > 0 { OpenParts(s, k); } else { NoneDelivered(s); }
        FitsTogether(s, s2, k);
      }
    }
  }

  lemma SeenInRange(n: Net, s: System)
    requires NetRel(n, s)
    ensures s.seenByA <= |s.b.sent| && s.seenByB <= |s.a.sent|
  {
    hide Inv, Modest, SideOk, NetRel, ChannelOk, OneSide;
    RelParts(n, s);
    ShapeOf(s);
  }

  lemma SameEnds(n: Net, s: System)
    requires NetRel(n, s)
    ensures n.a.e == s.a && n.b.e == s.b
  {
    hide Inv, Modest, SideOk, NetRel, ChannelOk;
    RelParts(n, s);
  }

  /** Nothing is delivered to a closed side. */
  lemma ClosedNow(s: System)
    requires s.a.closed
    ensures Delivered(s, InTransit(s)) == s && (InTransit(s) > 0 ==> !OpenToLast(s))
  {
    hide Delivered;
    ClosedFor(s, InTransit(s));
    if InTransit(s) > 0 { ClosedFor(s, InTransit(s) - 1); }
  }

  /** Deliveries after the first k. */
  lemma RestDelivered(s: System, k: nat)
    requires k <= InTransit(s) && s.seenByA <= |s.b.sent|
    ensures Delivered(Delivered(s, k), InTransit(Delivered(s, k))) == Delivered(s, InTransit(s))
  {
    hide Delivered;
    DeliveredOn(s, k, InTransit(s) - k);
    var mid := Delivered(s, k);
    if mid.a.closed {
      ClosedFor(mid, InTransit(mid));
      ClosedFor(mid, InTransit(s) - k);
    } else {
      if k > 0 { OpenBefore(s, k - 1, k); }
      DeliveredCounts(s, k);
    }
  }

  // ---- A pass ----

  /** Both writers are at work and no message is half handled. */
  ghost predicate Between(n: Net, s: System) {
    NetRel(n, s) && Working(n.a.w) && Working(n.b.w) && n.a.inbox == [] && n.b.inbox == []
  }

  lemma BetweenFlip(n: Net, s: System)
    requires Between(n, s)
    ensures Between(FlipNet(n), Flip(s))
  {
    hide NetRel, Working;
    FlipRel(n, s);
  }

  /** Actions of a, one after the other. */
  function ActAll(s: System, acts: seq<Action>): (r: System) {
    s.(a := Run(s.a, acts))
  }

  /** a acts and sends all it has. */
  function Posted(s: System, acts: seq<Action>): (r: System) {
    FlushA(ActAll(s, acts))
  }

  /** Then b handles all of it. */
  function AfterPass(s: System, acts: seq<Action>): (r: System) {
    var t := Flip(Posted(s, acts));
    Flip(Delivered(t, InTransit(t)))
  }

  /** Actions of the application of a native session. */
  predicate OwnActs(acts: seq<Action>) {
    forall i :: 0 <= i < |acts| ==> !Inbound(acts[i]) && !OfWriter(acts[i]) && Waiting(Perform(acts[i]))
  }

  lemma {:induction false} PerformAll(utf8: seq<Byte> -> bool, n: Net, s: System, acts: seq<Action>) returns (r: Net)
    requires NetRel(n, s) && Working(n.a.w) && OwnActs(acts)
    ensures Reaches(utf8, n, r) && NetRel(r, ActAll(s, acts)) && r.b == n.b
    ensures r.a.got == n.a.got && r.a.inbox == n.a.inbox && Working(r.a.w)
    decreases |acts|
  {
    hide NetRel, Working, Reaches, NetMoveA, Waiting, Step;
    r := n;
    if acts == [] {
      ReachSelf(utf8, n);
    } else {
      var front, last := acts[..|acts| - 1], acts[|acts| - 1];
      var n1 := PerformAll(utf8, n, s, front);
      r := NetMoveA(utf8, n1, Perform(last));
      PerformStep(utf8, n1, ActAll(s, front), last);
      ReachOn(utf8, n, n1, r);
    }
  }

  lemma {:induction false} RunKeepsError(e: Endpoint, acts: seq<Action>)
    requires OwnActs(acts)
    ensures Run(e, acts).error == e.error
  {
    hide Step, Waiting;
    if acts != [] { RunKeepsError(e, acts[..|acts| - 1]); }
  }

  /** Every pass of the two-party system is one of native sessions over the WebSocket, unless a message is too large
      for it, which takes an error of its sender. */
  lemma Pass(utf8: seq<Byte> -> bool, n: Net, s: System, acts: seq<Action>) returns (r: Net, stuck: bool)
    requires AsciiIsText(utf8) && Between(n, s) && OwnActs(acts)
    ensures Reaches(utf8, n, r) && (s.a.error.None? ==> !stuck)
    ensures if stuck then TooLarge(FlipNet(r)) else Between(r, AfterPass(s, acts))
    ensures !stuck && OpenToLast(Flip(Posted(s, acts))) ==> TransitFits(Flip(Posted(s, acts)))
  {
    hide NetRel, Working, Reaches, NetMoveA, Delivered, AsciiIsText, OpenToLast, Run, FlushA, TransitFits, InTransit;
    hide OwnActs, TooLarge;
    var n1 := PerformAll(utf8, n, s, acts);
    RunKeepsError(s.a, acts);
    var n2 := FlushAll(utf8, n1, ActAll(s, acts));
    ReachOn(utf8, n, n1, n2);
    var t := Flip(Posted(s, acts));
    FlipRel(n2, Posted(s, acts));
    FlushKeepsError(ActAll(s, acts));
    var n3;
    n3, stuck := ReadAll(utf8, FlipNet(n2), t);
    r := FlipNet(n3);
    ReachFlip(utf8, n2, n3);
    ReachOn(utf8, n, n2, r);
    if !stuck { FlipRel(n3, Delivered(t, InTransit(t))); }
  }

  lemma FlushKeepsError(s: System)
    ensures FlushA(s).a.error == s.a.error
  {
  }

  // ---- The steps that a pass does not need ----

  /** The writer: a pending credit goes out, a command that carries no frame is queued, and cancellation and the peer's
      close end it. */
  lemma WriterSteps(utf8: seq<Byte> -> bool, n: Net, id: StreamId, cmd: Cmd, ok1: bool, ok2: bool)
    ensures n.a.w.running && !n.a.w.closeSent && id in n.a.e.pendingCredit ==>
              NetMoveA(utf8, n, Grant(id, true, true)).a.e == Step(n.a.e, SendCredit(id))
    ensures !cmd.FrameCmd? ==> NetMoveA(utf8, n, Command(cmd)).a.w.log == n.a.w.log + [cmd]
    ensures n.a.w.running ==> !NetMoveA(utf8, n, Ending(Cancel(ok1, ok2))).a.w.running
    ensures n.a.w.running ==> !NetMoveA(utf8, n, Ending(PeerClose(ok2))).a.w.running
  {
    hide Step, OnFrame, DecodeAll, Bytes;
    if n.a.w.running && !n.a.w.closeSent { FrameSent(n.a.e.limits, n.a.w, Item(CreditFrame(n.a.e, id), false)); }
  }

  /** The inbound loop: bytes that did not decode are rejected once the frames before them are handled, and the peer's
      close frame closes. */
  lemma InboundSteps(utf8: seq<Byte> -> bool, n: Net, native: bool, queued: bool, room: bool)
    ensures n.a.inbox == [] && n.a.broken ==>
              && NetMoveA(utf8, n, HandleNext(queued, room)).a.e == Step(n.a.e, Reject(InvalidFrame, room))
              && !NetMoveA(utf8, n, HandleNext(queued, room)).a.broken
    ensures n.a.inbox == [] && !n.a.broken && !n.a.e.closed && n.a.got < |n.b.w.sink| &&
            n.b.w.sink[n.a.got].Closing? ==>
              NetMoveA(utf8, n, ReadMessage(native, room)).a.e == Step(n.a.e, CloseSession)
  {
    hide Step, OnFrame, DecodeAll, Bytes;
  }
}
