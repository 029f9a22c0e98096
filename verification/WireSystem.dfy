/** Two endpoints with their writers, joined by WebSocket messages: frames are queued as commands, packed into
    batches, sent as bytes, decoded and handled one by one. Every run of this system is a run of the two-party
    system, so the frame channel assumed there is what the bytes provide. */
module WireSystem {
  import opened VarInts
  import opened Frames
  import opened SessionLimits
  import opened Endpoints
  import opened Views
  import EndpointInvariant
  import opened EndpointTheorems
  import opened WriterLoop
  import opened Transmission
  import opened TwoParty
  import opened CreditOrder
  import opened Liveness
  import opened Links
  import opened HonestClosings
  import opened FrameSizes

  /** An endpoint, its writer, how many messages of the peer it has read, the frames of the last one that it has not
      handled yet, and whether that one ended in bytes that do not decode. */
  datatype Side = Side(e: Endpoint, w: Writer, got: nat, inbox: seq<Frame>, broken: bool)

  datatype Net = Net(a: Side, b: Side)

  /** What one side can do next. A read message may be too large, or end in a frame that does not decode. */
  datatype SideStep =
    | Perform(action: Action) | Command(cmd: Cmd)
    | Write(ok1: bool, ok2: bool) | Grant(id: StreamId, ok1: bool, ok2: bool) | Ending(ev: Event)
    | ReadMessage(native: bool, room: bool) | HandleNext(queued: bool, room: bool)

  datatype NetMove = NetMove(byA: bool, step: SideStep)

  /** The command that queues a frame. */
  function CmdOf(f: Frame): (c: Cmd) {
    if Fits(Header(f)) then FrameCmd(f) else PongCmd
  }

  function Cmds(fs: seq<Frame>): (cs: seq<Cmd>)
    ensures |cs| == |fs|
  {
    seq(|fs|, i requires 0 <= i < |fs| => CmdOf(fs[i]))
  }

  /** An action of the endpoint; frames it queues become commands. */
  function Performed(x: Side, action: Action): (r: Side) {
    var e' := Step(x.e, action);
    var added := if |x.e.outbound| <= |e'.outbound| then e'.outbound[|x.e.outbound|..] else [];
    x.(e := e', w := x.w.(log := x.w.log + Cmds(added)))
  }

  predicate OfWriter(a: Action) {
    a.SendQueued? || a.SendCredit?
  }

  /** A turn of the writer; if it took a frame, so did the endpoint. */
  function Written(x: Side, ev: Event, action: Action): (r: Side) {
    var w' := Turn(x.e.limits, x.w, ev);
    x.(w := w', e := if |w'.taken| > |x.w.taken| then Step(x.e, action) else x.e)
  }

  function CreditFrame(e: Endpoint, id: StreamId): (f: WireFrame) {
    var f := MaxStreamData(id, if id in e.pendingCredit then e.pendingCredit[id] else 0);
    if Fits(Header(f)) then f else OpenUni(0)
  }

  /** Take the next message of the peer and decode it. The transport of a native session holds it to the same limit, so
      that a message beyond it ends the session without a code. */
  function Received(utf8: seq<Byte> -> bool, x: Side, p: Packet, native: bool, room: bool): (r: Side) {
    var y := x.(got := x.got + 1);
    match p
    case PongPacket => y
    case ClosePacket => Performed(y, CloseSession)
    case Data(bytes) =>
      if |bytes| > x.e.limits.maxWsMessageSize
      then Performed(y, if native then CloseSession else Reject(MessageTooLarge, room))
      else y.(inbox := DecodeAll(bytes, utf8).frames, broken := DecodeAll(bytes, utf8).failure.Some?)
  }

  function SideMove(utf8: seq<Byte> -> bool, x: Side, peer: Side, st: SideStep): (r: Side) {
    match st
    case Perform(action) => if Inbound(action) || OfWriter(action) then x else Performed(x, action)
    case Command(cmd) => if cmd.FrameCmd? then x else x.(w := x.w.(log := x.w.log + [cmd]))
    case Write(ok1, ok2) => Written(x, Take(ok1, ok2), SendQueued)
    case Grant(id, ok1, ok2) =>
      if id !in x.e.pendingCredit then x
          else Written(x, TakeCredit(CreditFrame(x.e, id), ok1, ok2), SendCredit(id))
    case Ending(ev) => if ev.Cancel? || ev.PeerClose? then x.(w := Turn(x.e.limits, x.w, ev)) else x
    case ReadMessage(native, room) =>
      if x.inbox != [] || x.broken || x.got >= |peer.w.sink| || x.e.closed then x
      else Received(utf8, x, OnWire(peer.w.sink[x.got]), native, room)
    case HandleNext(queued, room) =>
      if x.inbox != [] then Performed(x, Receive(x.inbox[0], queued, room)).(inbox := x.inbox[1..])
      else if x.broken then Performed(x, Reject(InvalidFrame, room)).(broken := false)
      else x
  }

  function FlipNet(n: Net): (r: Net) {
    Net(n.b, n.a)
  }

  function NetMoveA(utf8: seq<Byte> -> bool, n: Net, st: SideStep): (r: Net) {
    n.(a := SideMove(utf8, n.a, n.b, st))
  }

  function NewSide(server: bool, lim: Limits): (x: Side) {
    Side(Fresh(server, lim), Started(), 0, [], false)
  }

  function NetOpening(server: bool, la: Limits, lb: Limits): (n: Net) {
    Net(NewSide(server, la), NewSide(!server, lb))
  }

  function NetStart(la: Limits, lb: Limits): (n: Net) {
    NetOpening(false, la, lb)
  }

  function NetStep(utf8: seq<Byte> -> bool, n: Net, m: NetMove): (r: Net) {
    if m.byA then NetMoveA(utf8, n, m.step) else FlipNet(NetMoveA(utf8, FlipNet(n), m.step))
  }

  function NetGo(utf8: seq<Byte> -> bool, n: Net, moves: seq<NetMove>): (r: Net)
    decreases |moves|
  {
    if moves == [] then n
    else NetStep(utf8, NetGo(utf8, n, moves[..|moves| - 1]), moves[|moves| - 1])
  }

  function NetRun(la: Limits, lb: Limits, utf8: seq<Byte> -> bool, moves: seq<NetMove>): (n: Net) {
    NetGo(utf8, NetStart(la, lb), moves)
  }

  /** The next message that a will read is larger than it takes. */
  predicate TooLarge(n: Net) {
    && n.a.inbox == [] && n.a.got < |n.b.w.sink| && !n.a.e.closed
    && var m := n.b.w.sink[n.a.got]; m.Binary? && |Bytes(m.items)| > n.a.e.limits.maxWsMessageSize
  }

  // ---- The simulation relation ----

  /** The writer's commands are the endpoint's queue, and what it took is what the endpoint sent. */
  predicate SideOk(x: Side) {
    && WriterInv(x.e.limits, x.w) && FramesOf(x.w.taken) == x.e.sent && x.w.done <= |x.w.log|
    && (x.w.running && !x.w.closeSent ==> QueuedFrames(x.w.log[x.w.done..]) == x.e.outbound)
  }

  /** What a has read is what it has handled and what waits in its inbox. */
  predicate ChannelOk(x: Side, peer: Side, seen: nat) {
    && x.got <= |peer.w.sink| && seen <= |peer.e.sent| && !x.broken
    && (!x.e.closed ==> FramesOf(Sent(peer.w.sink[..x.got])) == peer.e.sent[..seen] + x.inbox)
  }

  /** The batches of the other side are within our message limit. */
  predicate Suits(ours: Limits, theirs: Limits) {
    MaxBytes(theirs) <= ours.maxWsMessageSize
  }

  ghost predicate NetRel(n: Net, s: System) {
    && Inv(s) && s.a == n.a.e && s.b == n.b.e && Suits(s.a.limits, s.b.limits) && Suits(s.b.limits, s.a.limits)
    && SideOk(n.a) && SideOk(n.b) && ChannelOk(n.a, n.b, s.seenByA) && ChannelOk(n.b, n.a, s.seenByB)
    && Modest(s.a) && Modest(s.b)
  }

  // ---- Frames and commands ----

  lemma {:induction false} QueuedSplits(x: seq<Cmd>, y: seq<Cmd>)
    ensures QueuedFrames(x + y) == QueuedFrames(x) + QueuedFrames(y)
  {
    hide QueuedFrames;
    if y == [] {
      assert x + y == x;
      NothingQueued();
    } else {
      var most, last := y[..|y| - 1], y[|y| - 1];
      QueuedSplits(x, most);
      CommandAppended(most, last);
      CommandAppended(x + most, last);
      assert most + [last] == y && x + y == (x + most) + [last];
    }
  }

  lemma NothingQueued()
    ensures QueuedFrames([]) == []
  {
  }

  lemma CommandAppended(log: seq<Cmd>, cmd: Cmd)
    ensures QueuedFrames(log + [cmd]) == QueuedFrames(log) + (if cmd.FrameCmd? then [cmd.frame] else [])
  {
    assert (log + [cmd])[..|log|] == log;
  }

  lemma {:induction false} CmdsQueue(lim: Limits, fs: seq<Frame>)
    requires FramesOk(lim, fs)
    ensures QueuedFrames(Cmds(fs)) == fs
  {
    if fs != [] {
      var most, last := fs[..|fs| - 1], fs[|fs| - 1];
      assert FrameOk(lim, fs[|fs| - 1]);
      assert Cmds(fs)[..|fs| - 1] == Cmds(most) && Cmds(fs)[|fs| - 1] == FrameCmd(last);
      assert FramesOk(lim, most) by { hide FrameOk; }
      hide FrameOk, FramesOk, Cmds;
      CmdsQueue(lim, most);
    }
  }

  lemma QueueMany(lim: Limits, w: Writer, cs: seq<Cmd>)
    requires WriterInv(lim, w)
    ensures WriterInv(lim, w.(log := w.log + cs))
  {
    hide Sent, Picked, QueuedFrames, MsgFits, BatchFits;
    assert (w.log + cs)[..w.done] == w.log[..w.done];
  }

  // ---- Each step of a side ----

  /** Only the writer sends; everything else queues at the end. */
  lemma AppendsOnly(e: Endpoint, a: Action)
    requires !OfWriter(a)
    ensures Step(e, a).sent == e.sent && e.outbound <= Step(e, a).outbound
  {
    hide Step, Credits, NewId, Bystander, Silent;
    QuietStep(e, a, Bystander(e, a));
  }

  lemma PerformedOk(x: Side, a: Action)
    requires SideOk(x) && !OfWriter(a) && WireOk(Step(x.e, a))
    ensures SideOk(Performed(x, a)) && Performed(x, a).e.sent == x.e.sent && Performed(x, a).w.sink == x.w.sink
  {
    hide Step, WriterInv, QueuedFrames, FramesOf;
    AppendsOnly(x.e, a);
    var e' := Step(x.e, a);
    var added := e'.outbound[|x.e.outbound|..];
    NewFramesOk(x.e, e');
    CmdsQueue(x.e.limits, added);
    QueueMany(x.e.limits, x.w, Cmds(added));
    QueuedSplits(x.w.log[x.w.done..], Cmds(added));
    assert (x.w.log + Cmds(added))[x.w.done..] == x.w.log[x.w.done..] + Cmds(added);
    assert e'.outbound == x.e.outbound + added;
  }

  lemma NewFramesOk(e: Endpoint, e': Endpoint)
    requires WireOk(e') && |e.outbound| <= |e'.outbound|
    ensures FramesOk(e'.limits, e'.outbound[|e.outbound|..])
  {
    hide FrameOk;
  }

  /** What taking a command does to the writer's books. */
  predicate TookCommand(w: Writer, r: Writer) {
    && w.done < |w.log| && r.log == w.log && r.done == w.done + 1 && w.sink <= r.sink
    && (r.running && !r.closeSent ==> w.running && !w.closeSent)
    && (if r.taken == w.taken then w.log[w.done].FrameCmd? ==> w.closeSent || !r.running
        else && w.log[w.done].FrameCmd? && w.running && !w.closeSent
             && r.taken == w.taken + [Item(w.log[w.done].frame, true)])
  }

  predicate TookFrame(w: Writer, r: Writer, item: Item) {
    && r.log == w.log && r.done == w.done && w.sink <= r.sink
    && (r.running && !r.closeSent ==> w.running && !w.closeSent)
    && (if r.taken == w.taken then w.closeSent || !r.running
        else w.running && !w.closeSent && r.taken == w.taken + [item])
  }

  lemma FrameTaken(lim: Limits, w: Writer, item: Item, ok1: bool, ok2: bool)
    requires w.running
    ensures TookFrame(w, OnFrame(lim, w, item, ok1, ok2), item)
  {
    hide Weight, EncodeFrame;
    assert w.taken + [item] != w.taken by { assert |w.taken + [item]| == |w.taken| + 1; }
  }

  lemma CommandTaken(lim: Limits, w: Writer, ok1: bool, ok2: bool)
    requires w.running && w.done < |w.log|
    ensures TookCommand(w, Turn(lim, w, Take(ok1, ok2)))
  {
    hide OnFrame;
    var w1, cmd := w.(done := w.done + 1), w.log[w.done];
    if cmd.FrameCmd? { FrameTaken(lim, w1, Item(cmd.frame, true), ok1, ok2); }
  }

  lemma HeadQueued(w: Writer)
    requires w.done < |w.log|
    ensures QueuedFrames(w.log[w.done..])
            == (if w.log[w.done].FrameCmd? then [w.log[w.done].frame] else []) + QueuedFrames(w.log[w.done + 1..])
  {
    assert w.log[w.done..] == [w.log[w.done]] + w.log[w.done + 1..];
    QueuedSplits([w.log[w.done]], w.log[w.done + 1..]);
    assert [w.log[w.done]][..0] == [];
  }

  lemma OneMoreFrame(items: seq<Item>, item: Item)
    ensures FramesOf(items + [item]) == FramesOf(items) + [item.frame]
  {
  }

  lemma CommandBooks(x: Side, w: Writer)
    requires SideOk(x) && TookCommand(x.w, w) && WriterInv(x.e.limits, w)
    ensures SideOk(x.(w := w, e := if |w.taken| > |x.w.taken| then DoSendQueued(x.e) else x.e))
  {
    hide WriterInv, QueuedFrames, FramesOf;
    HeadQueued(x.w);
    if w.taken != x.w.taken { OneMoreFrame(x.w.taken, Item(x.w.log[x.w.done].frame, true)); }
  }

  lemma WriteOk(x: Side, ok1: bool, ok2: bool)
    requires SideOk(x) && x.e.limits.maxBatchFrames > 0
    ensures var r := Written(x, Take(ok1, ok2), SendQueued); SideOk(r) && x.w.sink <= r.w.sink
  {
    hide WriterInv, QueuedFrames, FramesOf, Step, DoSendQueued;
    assert WriterInv(x.e.limits, x.w);
    TurnKeeps(x.e.limits, x.w, Take(ok1, ok2));
    StepForm(x.e, SendQueued);
    if x.w.running && x.w.done < |x.w.log| {
      CommandTaken(x.e.limits, x.w, ok1, ok2);
      hide Turn;
      CommandBooks(x, Turn(x.e.limits, x.w, Take(ok1, ok2)));
    }
  }

  lemma CreditBooks(x: Side, w: Writer, id: StreamId)
    requires SideOk(x) && WriterInv(x.e.limits, w) && id in x.e.pendingCredit
             && Fits(Header(MaxStreamData(id, x.e.pendingCredit[id])))
    requires TookFrame(x.w, w, Item(MaxStreamData(id, x.e.pendingCredit[id]), false))
    ensures SideOk(x.(w := w, e := if |w.taken| > |x.w.taken| then DoSendCredit(x.e, id) else x.e))
  {
    hide WriterInv, QueuedFrames, FramesOf, Fits, Header;
    if w.taken != x.w.taken { OneMoreFrame(x.w.taken, Item(MaxStreamData(id, x.e.pendingCredit[id]), false)); }
  }

  lemma GrantOk(x: Side, id: StreamId, ok1: bool, ok2: bool)
    requires SideOk(x) && x.e.limits.maxBatchFrames > 0 && id in x.e.pendingCredit
             && Fits(Header(MaxStreamData(id, x.e.pendingCredit[id])))
    ensures var r := Written(x, TakeCredit(CreditFrame(x.e, id), ok1, ok2), SendCredit(id));
            SideOk(r) && x.w.sink <= r.w.sink
  {
    hide WriterInv, QueuedFrames, FramesOf, Step, DoSendCredit, OnFrame;
    assert WriterInv(x.e.limits, x.w);
    var f := CreditFrame(x.e, id);
    TurnKeeps(x.e.limits, x.w, TakeCredit(f, ok1, ok2));
    StepForm(x.e, SendCredit(id));
    if x.w.running && !x.w.closeSent {
      FrameTaken(x.e.limits, x.w, Item(f, false), ok1, ok2);
      CreditBooks(x, Turn(x.e.limits, x.w, TakeCredit(f, ok1, ok2)), id);
    }
  }

  // ---- Simulation ----

  /** A side acted and sent nothing: the channel from it is as it was, and so is the one to it. */
  lemma SameChannels(x: Side, r: Side, peer: Side, seen: nat, seenByPeer: nat)
    requires ChannelOk(x, peer, seen) && ChannelOk(peer, x, seenByPeer)
    requires r.got == x.got && r.inbox == x.inbox && r.broken == x.broken && (x.e.closed ==> r.e.closed)
    requires x.w.sink <= r.w.sink && x.e.sent <= r.e.sent
    ensures ChannelOk(r, peer, seen) && ChannelOk(peer, r, seenByPeer)
  {
    hide Sent, FramesOf;
    assert r.w.sink[..peer.got] == x.w.sink[..peer.got] && r.e.sent[..seenByPeer] == x.e.sent[..seenByPeer];
  }

  lemma RelParts(n: Net, s: System)
    requires NetRel(n, s)
    ensures Inv(s) && s.a == n.a.e && s.b == n.b.e && Suits(s.a.limits, s.b.limits) && Suits(s.b.limits, s.a.limits)
    ensures SideOk(n.a) && SideOk(n.b) && ChannelOk(n.a, n.b, s.seenByA) && ChannelOk(n.b, n.a, s.seenByB)
    ensures Modest(s.a) && Modest(s.b)
  {
    hide Inv, SideOk, ChannelOk, Modest;
    ShapeOf(s);
  }

  lemma WireOf(s: System)
    requires Inv(s)
    ensures WireOk(s.a) && WireOk(s.b) && AllOk(s.a) && AllOk(s.b)
  {
    hide WireOk, AllOk;
  }

  /** An action of the endpoint. */
  lemma SimPerform(n: Net, s: System, action: Action)
    requires NetRel(n, s) && !Inbound(action) && !OfWriter(action)
    ensures NetRel(n.(a := Performed(n.a, action)), ActA(s, action))
  {
    hide Inv, Modest, SideOk, ChannelOk, Step, NetRel, WireOk, AllOk;
    RelParts(n, s);
    ModestAct(s.a, action);
    ActInv(s, action);
    WireOf(ActA(s, action));
    PerformedOk(n.a, action);
    SameChannels(n.a, Performed(n.a, action), n.b, s.seenByA, s.seenByB);
    MakeRel(n.(a := Performed(n.a, action)), ActA(s, action));
  }

  lemma MakeRel(n: Net, s: System)
    requires Inv(s) && s.a == n.a.e && s.b == n.b.e && Suits(s.a.limits, s.b.limits) && Suits(s.b.limits, s.a.limits)
    requires SideOk(n.a) && SideOk(n.b) && ChannelOk(n.a, n.b, s.seenByA) && ChannelOk(n.b, n.a, s.seenByB)
    requires Modest(s.a) && Modest(s.b)
    ensures NetRel(n, s)
  {
    hide Inv, SideOk, ChannelOk, Modest;
  }

  /** A turn of the writer. */
  lemma SimWrite(n: Net, s: System, r: Side, action: Action)
    requires NetRel(n, s) && SideOk(r) && n.a.w.sink <= r.w.sink && (action.SendQueued? || action.SendCredit?)
    requires r.e == n.a.e || r.e == Step(n.a.e, action)
    requires r == n.a.(w := r.w, e := r.e)
    ensures NetRel(n.(a := r), if r.e == n.a.e then s else ActA(s, action))
  {
    hide Inv, Modest, SideOk, ChannelOk, Step, NetRel;
    RelParts(n, s);
    ModestAct(s.a, action);
    ActInv(s, action);
    SameChannels(n.a, r, n.b, s.seenByA, s.seenByB);
    MakeRel(n.(a := r), if r.e == n.a.e then s else ActA(s, action));
  }

  /** A command that carries no frame, or the end of the writer's loop. */
  lemma QuietWriter(x: Side, ev: Event)
    requires SideOk(x) && x.e.limits.maxBatchFrames > 0
             && (ev.Cancel? || ev.PeerClose? || (ev.Queue? && !ev.cmd.FrameCmd?))
    ensures SideOk(x.(w := Turn(x.e.limits, x.w, ev))) && x.w.sink <= Turn(x.e.limits, x.w, ev).sink
  {
    hide WriterInv, FramesOf;
    assert WriterInv(x.e.limits, x.w);
    TurnKeeps(x.e.limits, x.w, ev);
    if ev.Queue? {
      QueuedSplits(x.w.log[x.w.done..], [ev.cmd]);
      assert (x.w.log + [ev.cmd])[x.w.done..] == x.w.log[x.w.done..] + [ev.cmd];
      assert [ev.cmd][..0] == [];
    }
  }

  lemma {:induction false} SentGrows(sink: seq<Msg>, k: nat)
    requires k <= |sink|
    ensures Sent(sink[..k]) <= Sent(sink)
  {
    if k < |sink| {
      SentGrows(sink[..|sink| - 1], k);
      assert sink[..|sink| - 1][..k] == sink[..k];
    } else {
      assert sink[..k] == sink;
    }
  }

  /** What the messages carry has been sent, in that order. */
  lemma Carries(x: Side, k: nat)
    requires SideOk(x) && k <= |x.w.sink|
    ensures FramesOf(Sent(x.w.sink[..k])) <= x.e.sent
  {
    hide Sent, BatchFits, MsgFits, QueuedFrames, Picked, QuietAfterClose;
    SentGrows(x.w.sink, k);
    var s, t := Sent(x.w.sink[..k]), x.w.taken;
    assert s <= t;
    assert t == s + t[|s|..];
    FramesJoin(s, t[|s|..]);
  }

  lemma NextMessage(sink: seq<Msg>, k: nat)
    requires k < |sink|
    ensures FramesOf(Sent(sink[..k + 1]))
            == FramesOf(Sent(sink[..k])) + (if sink[k].Binary? then FramesOf(sink[k].items) else [])
  {
    assert sink[..k + 1] == sink[..k] + [sink[k]];
    SentAppend(sink[..k], sink[k]);
    if sink[k].Binary? { FramesJoin(Sent(sink[..k]), sink[k].items); }
  }

  /** Each frame of a message is one the sender's endpoint sent, so the message decodes to exactly its frames, and it
      is within the limit exactly if its closing frames are. */
  lemma Readable(utf8: seq<Byte> -> bool, x: Side, k: nat, size: nat)
    requires AsciiIsText(utf8) && SideOk(x) && WireOk(x.e) && Valid(x.e.limits) && MaxBytes(x.e.limits) <= size
    requires k < |x.w.sink| && x.w.sink[k].Binary?
    ensures var items := x.w.sink[k].items;
            && DecodeAll(Bytes(items), utf8) == Decoded(FramesOf(items), None)
            && (|Bytes(items)| <= size <==> FittingMsg(size, x.w.sink[k]))
  {
    hide FrameOk, Valid, DecodeAll, Bytes, InRange, MsgFits, FittingMsg;
    var m, lim := x.w.sink[k], x.e.limits;
    HeldFrames(x, k);
    forall i | 0 <= i < |m.items| ensures FrameOk(lim, m.items[i].frame) && InRange(m.items[i].frame, utf8) {
      OkInRange(lim, m.items[i].frame, utf8);
    }
    assert MsgFits(lim, m);
    MessageDecodes(m, utf8);
    MessageFits(lim, m, size);
  }

  lemma HeldFrames(x: Side, k: nat)
    requires SideOk(x) && k < |x.w.sink| && x.w.sink[k].Binary?
    ensures forall i :: 0 <= i < |x.w.sink[k].items| ==> x.w.sink[k].items[i].frame in x.e.sent
  {
    hide MsgFits;
    Carries(x, |x.w.sink|);
    assert x.w.sink[..|x.w.sink|] == x.w.sink;
    SentHolds(x.w.sink, k);
  }

  /** With a message limit that takes the longest closing frame that the other side queues, no message is too large. */
  lemma NeverTooLarge(n: Net, s: System)
    requires NetRel(n, s) && s.a.limits.maxWsMessageSize >= LongestHonest(s.b.limits)
    ensures !TooLarge(n)
  {
    hide Inv, Modest, SideOk, ChannelOk, Valid, Bytes, MsgFits, FrameOk, AllOk;
    RelParts(n, s);
    if n.a.got < |n.b.w.sink| && n.b.w.sink[n.a.got].Binary? {
      WireOf(s);
      ValidOf(s.b);
      HeldFrames(n.b, n.a.got);
      var m, size := n.b.w.sink[n.a.got], s.a.limits.maxWsMessageSize;
      forall k | 0 <= k < |m.items| ensures Fitting(size, m.items[k].frame) { SentFits(s.b, m.items[k].frame, size); }
      MsgWithin(n.b, n.a.got);
      MessageFits(s.b.limits, m, size);
    }
  }

  lemma SentFits(e: Endpoint, f: Frame, size: nat)
    requires Modest(e) && f in e.sent && size >= LongestHonest(e.limits)
    ensures Fitting(size, f)
  {
    assert f in Log(e);
  }

  lemma MsgWithin(x: Side, k: nat)
    requires SideOk(x) && k < |x.w.sink|
    ensures MsgFits(x.e.limits, x.w.sink[k])
  {
    hide MsgFits;
  }

  /** Reading a message: its frames wait in the inbox, and the frame channel has not moved. */
  lemma SimRead(utf8: seq<Byte> -> bool, n: Net, s: System, native: bool, room: bool)
    requires AsciiIsText(utf8) && NetRel(n, s) && n.a.inbox == [] && n.a.got < |n.b.w.sink| && !n.a.e.closed
    requires !n.b.w.sink[n.a.got].Closing? && !TooLarge(n)
    ensures NetRel(n.(a := Received(utf8, n.a, OnWire(n.b.w.sink[n.a.got]), native, room)), s)
  {
    hide Inv, Modest, SideOk, ChannelOk, NetRel, AsciiIsText, DecodeAll, Bytes, FramesOf, Performed, WireOk, AllOk;
    RelParts(n, s);
    var m := n.b.w.sink[n.a.got];
    var r := n.a.(got := n.a.got + 1, inbox := if m.Binary? then FramesOf(m.items) else []);
    ReadSide(n.a, r, n.b, s.seenByA, s.seenByB);
    if m.Binary? {
      WireOf(s);
      ValidOf(s.b);
      Readable(utf8, n.b, n.a.got, n.a.e.limits.maxWsMessageSize);
    }
    MakeRel(n.(a := r), s);
    assert Received(utf8, n.a, OnWire(m), native, room) == r by { NotBroken(n.a, n.b, s.seenByA); }
  }

  lemma NotBroken(x: Side, peer: Side, seen: nat)
    requires ChannelOk(x, peer, seen)
    ensures !x.broken
  {
  }

  lemma ReadSide(x: Side, r: Side, peer: Side, seen: nat, seenByPeer: nat)
    requires SideOk(x) && ChannelOk(x, peer, seen) && ChannelOk(peer, x, seenByPeer)
    requires x.inbox == [] && x.got < |peer.w.sink| && !x.e.closed
    requires var m := peer.w.sink[x.got];
             r == x.(got := x.got + 1, inbox := if m.Binary? then FramesOf(m.items) else [])
    ensures SideOk(r) && ChannelOk(r, peer, seen) && ChannelOk(peer, r, seenByPeer)
  {
    hide WriterInv, QueuedFrames, Sent, FramesOf;
    NextMessage(peer.w.sink, x.got);
  }

  /** The next frame of the inbox is the next frame in transit. */
  lemma SimHandle(n: Net, s: System, queued: bool, room: bool)
    requires NetRel(n, s) && n.a.inbox != []
    ensures var r := Performed(n.a, Receive(n.a.inbox[0], queued, room)).(inbox := n.a.inbox[1..]);
            NetRel(n.(a := r), DeliverA(s, queued, room))
  {
    hide Inv, Modest, SideOk, ChannelOk, Step, NetRel, WireOk, AllOk;
    RelParts(n, s);
    ModestDeliver(s, queued, room);
    var a := Receive(n.a.inbox[0], queued, room);
    var s' := DeliverA(s, queued, room);
    NextInTransit(n.a, n.b, s.seenByA);
    if n.a.e.closed { ClosedReceives(n.a.e, n.a.inbox[0], queued, room); }
    DeliverInv(s, queued, room);
    WireOf(s');
    PerformedOk(n.a, a);
    var p := Performed(n.a, a);
    PopInbox(n.a, p, n.b, s.seenByA, s.seenByB, s'.seenByA);
    MakeRel(n.(a := p.(inbox := n.a.inbox[1..])), s');
  }

  lemma ClosedReceives(e: Endpoint, f: Frame, queued: bool, room: bool)
    requires e.closed
    ensures Step(e, Receive(f, queued, room)) == e
  {
  }

  lemma NextInTransit(x: Side, peer: Side, seen: nat)
    requires SideOk(peer) && ChannelOk(x, peer, seen) && x.inbox != []
    ensures !x.e.closed ==> seen < |peer.e.sent| && peer.e.sent[seen] == x.inbox[0]
  {
    hide SideOk, Sent, FramesOf;
    Carries(peer, x.got);
  }

  lemma PopInbox(x: Side, p: Side, peer: Side, seen: nat, seenByPeer: nat, seen': nat)
    requires SideOk(p) && ChannelOk(x, peer, seen) && ChannelOk(peer, x, seenByPeer) && x.inbox != []
    requires p == x.(e := p.e, w := p.w) && p.e.sent == x.e.sent && p.w.sink == x.w.sink && (x.e.closed ==> p.e.closed)
    requires if x.e.closed then seen' == seen else seen' == seen + 1 <= |peer.e.sent| && peer.e.sent[seen] == x.inbox[0]
    ensures var r := p.(inbox := x.inbox[1..]);
            SideOk(r) && ChannelOk(r, peer, seen') && ChannelOk(peer, r, seenByPeer)
  {
    hide WriterInv, QueuedFrames, Sent, FramesOf;
    if !x.e.closed {
      assert peer.e.sent[..seen'] == peer.e.sent[..seen] + [x.inbox[0]];
      assert x.inbox == [x.inbox[0]] + x.inbox[1..];
    }
  }

  /** The peer closed the transport: the session closes. */
  lemma SimClosing(n: Net, s: System)
    requires NetRel(n, s) && n.a.got < |n.b.w.sink|
    ensures var r := Performed(n.a.(got := n.a.got + 1), CloseSession);
            NetRel(n.(a := r), ActA(s, CloseSession))
  {
    hide Inv, Modest, SideOk, ChannelOk, NetRel, Step;
    SimPerform(n, s, CloseSession);
    CloseCloses(n.a.e);
    var p := Performed(n.a, CloseSession);
    var n', s' := n.(a := p), ActA(s, CloseSession);
    RelParts(n', s');
    ClosedReads(p, n.b, s'.seenByA, s'.seenByB);
    assert Performed(n.a.(got := n.a.got + 1), CloseSession) == p.(got := p.got + 1);
    MakeRel(n.(a := p.(got := p.got + 1)), s');
  }

  lemma CloseCloses(e: Endpoint)
    ensures Step(e, CloseSession).closed
  {
  }

  lemma ClosedReads(x: Side, peer: Side, seen: nat, seenByPeer: nat)
    requires SideOk(x) && ChannelOk(x, peer, seen) && ChannelOk(peer, x, seenByPeer) && x.e.closed
             && x.got < |peer.w.sink|
    ensures var r := x.(got := x.got + 1); SideOk(r) && ChannelOk(r, peer, seen) && ChannelOk(peer, r, seenByPeer)
  {
    hide WriterInv, QueuedFrames, Sent, FramesOf;
  }

  /** The move of the two-party system that a step of side a amounts to, if any. */
  function MoveOf(utf8: seq<Byte> -> bool, n: Net, st: SideStep): (ms: seq<Move>)
    ensures |ms| <= 1 && forall i :: 0 <= i < |ms| ==> if ms[i].Act? then ms[i].byA else ms[i].toA
  {
    var r := SideMove(utf8, n.a, n.b, st);
    match st
    case Perform(action) => if Inbound(action) || OfWriter(action) then [] else [Act(true, action)]
    case Command(_) => []
    case Write(_, _) => if r.e == n.a.e then [] else [Act(true, SendQueued)]
    case Grant(id, _, _) => if r.e == n.a.e then [] else [Act(true, SendCredit(id))]
    case Ending(_) => []
    case ReadMessage(_, _) =>
      if n.a.inbox == [] && !n.a.broken && n.a.got < |n.b.w.sink| && !n.a.e.closed && n.b.w.sink[n.a.got].Closing?
      then [Act(true, CloseSession)] else []
    case HandleNext(queued, room) => if n.a.inbox != [] then [Deliver(true, queued, room)] else []
  }

  lemma WriterMove(utf8: seq<Byte> -> bool, n: Net, s: System, st: SideStep)
    requires AsciiIsText(utf8) && NetRel(n, s) && (st.Write? || st.Grant? || st.Command? || st.Ending?)
    ensures NetRel(NetMoveA(utf8, n, st), Play(s, MoveOf(utf8, n, st)))
  {
    hide Inv, Modest, SideOk, ChannelOk, NetRel, Step, Turn, Play, ActA;
    RelParts(n, s);
    TakesFrames(s);
    NoMove(s);
    var x := n.a;
    match st
    case Command(cmd) =>
      if !cmd.FrameCmd? {
        QuietWriter(x, Queue(cmd));
        QueueTurn(x.e.limits, x.w, cmd);
        SimWrite(n, s, x.(w := Turn(x.e.limits, x.w, Queue(cmd))), SendQueued);
      }
    case Ending(ev) =>
      if ev.Cancel? || ev.PeerClose? {
        QuietWriter(x, ev);
        SimWrite(n, s, x.(w := Turn(x.e.limits, x.w, ev)), SendQueued);
      }
    case Write(ok1, ok2) =>
      WriteOk(x, ok1, ok2);
      SimWrite(n, s, Written(x, Take(ok1, ok2), SendQueued), SendQueued);
      OneMove(s, SendQueued);
    case Grant(id, ok1, ok2) =>
      if id in x.e.pendingCredit {
        CreditFits(s, id);
        GrantOk(x, id, ok1, ok2);
        SimWrite(n, s, Written(x, TakeCredit(CreditFrame(x.e, id), ok1, ok2), SendCredit(id)),
            SendCredit(id));
        OneMove(s, SendCredit(id));
      }
  }

  lemma TakesFrames(s: System)
    requires Inv(s)
    ensures s.a.limits.maxBatchFrames > 0
  {
    hide Inv, AllOk, WireOk;
    WireOf(s);
    ValidOf(s.a);
  }

  lemma NoMove(s: System)
    ensures Play(s, []) == s
  {
  }

  lemma OneMove(s: System, a: Action)
    ensures Play(s, [Act(true, a)]) == ActA(s, a)
  {
    hide ActA, Play;
    PlayOne(s, Act(true, a));
  }

  lemma OneDelivery(s: System, queued: bool, room: bool)
    ensures Play(s, [Deliver(true, queued, room)]) == DeliverA(s, queued, room)
  {
    hide DeliverA, Play;
    PlayOne(s, Deliver(true, queued, room));
  }

  lemma QueueTurn(lim: Limits, w: Writer, cmd: Cmd)
    ensures Turn(lim, w, Queue(cmd)) == w.(log := w.log + [cmd])
  {
  }

  lemma CreditFits(s: System, id: StreamId)
    requires Inv(s) && id in s.a.pendingCredit
    ensures Fits(Header(MaxStreamData(id, s.a.pendingCredit[id])))
  {
    hide Inv, AllOk, EndpointInvariant.StreamOk;
    WireOf(s);
    StreamOf(s.a, id);
    CreditOf(s.a, id);
  }

  /** Each step of side a is a move of the two-party system, or none, unless it reads a message that is too large. */
  lemma SimStep(utf8: seq<Byte> -> bool, n: Net, s: System, st: SideStep)
    requires AsciiIsText(utf8) && NetRel(n, s) && !TooLarge(n)
    ensures NetRel(NetMoveA(utf8, n, st), Play(s, MoveOf(utf8, n, st)))
  {
    hide Inv, Modest, SideOk, ChannelOk, NetRel, Step, Turn, Play, ActA, DeliverA, Written, Performed, AsciiIsText;
    hide TooLarge;
    NoMove(s);
    match st
    case Perform(action) =>
      if !Inbound(action) && !OfWriter(action) {
        SimPerform(n, s, action);
        OneMove(s, action);
      }
    case ReadMessage(native, room) =>
      if n.a.inbox == [] && !n.a.broken && n.a.got < |n.b.w.sink| && !n.a.e.closed {
        if n.b.w.sink[n.a.got].Closing? {
          SimClosing(n, s);
          OneMove(s, CloseSession);
        } else {
          SimRead(utf8, n, s, native, room);
        }
      }
    case HandleNext(queued, room) =>
      RelParts(n, s);
      NotBroken(n.a, n.b, s.seenByA);
      if n.a.inbox != [] {
        SimHandle(n, s, queued, room);
        OneDelivery(s, queued, room);
      }
    case _ => WriterMove(utf8, n, s, st);
  }

  lemma FlipRel(n: Net, s: System)
    requires NetRel(n, s)
    ensures NetRel(FlipNet(n), Flip(s))
  {
    hide SideOk, ChannelOk, Inv, Modest;
    ShapeOf(s);
    FlipInv(s);
  }

  lemma OpeningRel(server: bool, la: Limits, lb: Limits)
    requires Valid(la) && Valid(lb) && Suits(la, lb) && Suits(lb, la)
    ensures NetRel(NetOpening(server, la, lb), Opening(server, la, lb))
  {
    hide Inv;
    OpeningInv(server, la, lb);
  }

  lemma MirrorPlay(s: System, ms: seq<Move>)
    ensures Play(s, Mirrored(ms)) == Flip(Play(Flip(s), ms))
  {
    hide Play, Mirrored;
    PlayMirrored(Flip(s), ms);
    assert Flip(Flip(s)) == s;
  }

  /** Either side's step. */
  lemma SimNet(utf8: seq<Byte> -> bool, n: Net, s: System, m: NetMove) returns (more: seq<Move>)
    requires AsciiIsText(utf8) && NetRel(n, s) && !TooLarge(n) && !TooLarge(FlipNet(n))
    ensures NetRel(NetStep(utf8, n, m), Play(s, more))
  {
    hide NetRel, AsciiIsText, NetMoveA, MoveOf, Play, TooLarge;
    if m.byA {
      SimStep(utf8, n, s, m.step);
      more := MoveOf(utf8, n, m.step);
    } else {
      FlipRel(n, s);
      SimStep(utf8, FlipNet(n), Flip(s), m.step);
      var ms := MoveOf(utf8, FlipNet(n), m.step);
      FlipRel(NetMoveA(utf8, FlipNet(n), m.step), Play(Flip(s), ms));
      MirrorPlay(s, ms);
      more := Mirrored(ms);
    }
  }

  /** Each side's message limit takes the batches and the closing frames of the other. */
  predicate Compatible(la: Limits, lb: Limits) {
    && Suits(la, lb) && la.maxWsMessageSize >= LongestHonest(lb)
    && Suits(lb, la) && lb.maxWsMessageSize >= LongestHonest(la)
  }

  /** The frame channel of the two-party system is what the WebSocket provides: in every run in which frames are
      queued, batched, sent as bytes, decoded and handled one by one, with batches and half-read messages in flight,
      the endpoints are those of some two-party run. What a has read is what it handled and what waits in its inbox,
      what b's messages carry is a prefix of what b sent, and no message is too large or fails to decode. */
  lemma {:induction false} OverWebSocket(la: Limits, lb: Limits, utf8: seq<Byte> -> bool, moves: seq<NetMove>)
      returns (play: seq<Move>)
    requires Valid(la) && Valid(lb) && Compatible(la, lb) && AsciiIsText(utf8)
    ensures NetRel(NetRun(la, lb, utf8, moves), Play(Start(la, lb), play))
    ensures !TooLarge(NetRun(la, lb, utf8, moves)) && !TooLarge(FlipNet(NetRun(la, lb, utf8, moves)))
    decreases |moves|
  {
    hide NetRel, Valid, LongestHonest, AsciiIsText, NetStep, TooLarge, NetOpening, Opening, Suits;
    play := [];
    if moves == [] {
      OpeningRel(false, la, lb);
    } else {
      var front, m := moves[..|moves| - 1], moves[|moves| - 1];
      var before := OverWebSocket(la, lb, utf8, front);
      var n, s := NetRun(la, lb, utf8, front), Play(Start(la, lb), before);
      var more := SimNet(utf8, n, s, m);
      PlayConcat(Start(la, lb), before, more);
      play := before + more;
    }
    var n, s := NetRun(la, lb, utf8, moves), Play(Start(la, lb), play);
    SameLimits(la, lb, play);
    NeverTooLarge(n, s);
    FlipRel(n, s);
    NeverTooLarge(FlipNet(n), Flip(s));
  }

  lemma SameLimits(la: Limits, lb: Limits, play: seq<Move>)
    ensures Play(Start(la, lb), play).a.limits == la && Play(Start(la, lb), play).b.limits == lb
  {
    hide Play;
    PlayLimits(Start(la, lb), play);
  }

  lemma RelFacing(n: Net, s: System, flipped: bool)
    requires NetRel(n, s)
    ensures var m := if flipped then FlipNet(n) else n;
            m.a.e == Facing(s, flipped).a && m.b.e == Facing(s, flipped).b && !m.a.broken
  {
    hide Inv, Modest, SideOk;
  }

  /** End to end, over the bytes: whatever the schedule, the batching and the reads, a session ends with no error
      but code 3, or code 2 if it gave a stream up halfway through its open or takes smaller frames than its peer
      makes; every message decodes; and what an application has read of a stream is a prefix of what its peer wrote to
      it, all of it once it has read past the FIN. */
  lemma EndToEnd(la: Limits, lb: Limits, utf8: seq<Byte> -> bool, moves: seq<NetMove>, flipped: bool, id: StreamId)
    requires Valid(la) && Valid(lb) && Compatible(la, lb) && AsciiIsText(utf8)
    ensures var run := NetRun(la, lb, utf8, moves);
            var n := if flipped then FlipNet(run) else run;
            && n.a.e.error in {None, Some(2), Some(3)} && !n.a.broken
            && (n.a.e.error == Some(2) ==>
                  (exists j :: Half(n.a.e, j)) || !Takes(Ours(la, lb, flipped), Theirs(la, lb, flipped)))
            && (id in n.a.e.readers ==>
                  && n.a.e.readers[id].delivered <= Carried(id, Log(n.b.e))
                  && (n.a.e.readers[id].finSeen && n.a.e.readers[id].pending == [] ==>
                        n.a.e.readers[id].delivered == Carried(id, Log(n.b.e))))
  {
    hide NetRel, Valid, Compatible, AsciiIsText, NetRun, Play, Carried, Log, Facing, TooLarge, Half, Undone, Strained;
    hide Takes, Start;
    var play := OverWebSocket(la, lb, utf8, moves);
    RelFacing(NetRun(la, lb, utf8, moves), Play(Start(la, lb), play), flipped);
    NoProtocolErrors(la, lb, play, flipped);
    if Undone(la, lb, play, flipped) { var j := UndoneLeavesHalf(la, lb, play, flipped); }
    if Takes(Ours(la, lb, flipped), Theirs(la, lb, flipped)) { NeverStrained(la, lb, play, flipped); }
    StreamIntegrity(la, lb, play, flipped, id);
  }
}
