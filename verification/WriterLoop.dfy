/** The native writer task: it packs queued frames and credits into WebSocket messages. */
module WriterLoop {
  import opened Frames
  import opened SessionLimits

  /** A frame that can be encoded. */
  type WireFrame = f: Frame | Fits(Header(f)) witness OpenUni(0)

  /** A frame handed to the writer, from the command queue or from the pending-credit map. */
  datatype Item = Item(frame: WireFrame, queued: bool)

  datatype Cmd = FrameCmd(frame: WireFrame) | PongCmd | FlushCmd | ShutdownCmd

  datatype Msg = Binary(items: seq<Item>) | Pong | Closing

  /** `log` holds every command ever queued and `done` how many were taken. A flush is named by its
      position in the log; `acks` maps those answered with success to whether closing had not begun.
      `taken` records the frames accepted for transmission, in order. */
  datatype Writer = Writer(
    log: seq<Cmd>, done: nat, batch: seq<Item>, closeSent: bool, running: bool,
    sink: seq<Msg>, acks: map<nat, bool>, taken: seq<Item>)

  function Started(): (w: Writer) {
    Writer([], 0, [], false, true, [], map[], [])
  }

  function Weight(items: seq<Item>): (n: nat) {
    if items == [] then 0 else Weight(items[..|items| - 1]) + |EncodeFrame(items[|items| - 1].frame)|
  }

  lemma WeightAppend(items: seq<Item>, i: Item)
    ensures Weight(items + [i]) == Weight(items) + |EncodeFrame(i.frame)|
  {
    assert (items + [i])[..|items|] == items;
  }

  function MaxBytes(lim: Limits): (n: nat) {
    if lim.maxBatchBytes <= lim.maxWsMessageSize then lim.maxBatchBytes else lim.maxWsMessageSize
  }

  /** What is in the sink stays there. */
  predicate Extends(w: Writer, r: Writer) {
    r.log == w.log && r.done == w.done && w.sink <= r.sink
  }

  /** Send the batch if there is one; a failing sink ends the loop. */
  function FlushBatch(w: Writer, ok: bool): (r: Writer)
    ensures Extends(w, r) && r.acks == w.acks
  {
    if w.batch == [] then w
    else if ok then w.(sink := w.sink + [Binary(w.batch)], batch := [])
    else w.(batch := [], running := false)
  }

  function Append(w: Writer, item: Item): (r: Writer)
    ensures Extends(w, r) && r.acks == w.acks
  {
    w.(batch := w.batch + [item], taken := w.taken + [item])
  }

  /** One frame: make room, append, and send when the batch is full or nothing else is queued. */
  function OnFrame(lim: Limits, w: Writer, item: Item, ok1: bool, ok2: bool): (r: Writer)
    ensures Extends(w, r) && r.acks == w.acks
  {
    if w.closeSent then w else
    var w1 := if w.batch != [] && Weight(w.batch) + |EncodeFrame(item.frame)| > MaxBytes(lim)
              then FlushBatch(w, ok1) else w;
    if !w1.running then w1 else
    var w2 := Append(w1, item);
    if |w2.batch| >= lim.maxBatchFrames || Weight(w2.batch) >= MaxBytes(lim) || w2.done >= |w2.log|
    then FlushBatch(w2, ok2) else w2
  }

  function OnPong(w: Writer, ok1: bool, ok2: bool): (r: Writer)
    ensures Extends(w, r) && r.acks == w.acks
  {
    if w.closeSent then w else
    var w1 := FlushBatch(w, ok1);
    if !w1.running then w1
    else if ok2 then w1.(sink := w1.sink + [Pong]) else w1.(running := false)
  }

  function OnFlush(w: Writer, ticket: nat, ok1: bool, ok2: bool): (r: Writer)
    ensures Extends(w, r)
  {
    var w1 := FlushBatch(w, ok1);
    if w1.running && ok2 then w1.(acks := w1.acks[ticket := !w1.closeSent]) else w1
  }

  function OnShutdown(w: Writer, ok1: bool, ok2: bool): (r: Writer)
    ensures Extends(w, r) && r.acks == w.acks
  {
    var w1 := FlushBatch(w, ok1);
    if !w1.running then w1
    else if ok2 then w1.(sink := w1.sink + [Closing], closeSent := true) else w1.(running := false)
  }

  /** The session was cancelled, or every sender is gone: send what is batched, close, and stop. */
  function OnCancel(w: Writer, ok1: bool, ok2: bool): (r: Writer)
    ensures Extends(w, r) && r.acks == w.acks
  {
    var w1 := FlushBatch(w, ok1);
    if ok2 then w1.(sink := w1.sink + [Closing], closeSent := true, running := false) else w1.(running := false)
  }

  /** The peer closed the transport: answer, drop what is batched, and stop. */
  function OnPeerClose(w: Writer, ok: bool): (r: Writer)
    ensures Extends(w, r) && r.acks == w.acks
  {
    var w1 := w.(batch := [], running := false);
    if ok then w1.(sink := w1.sink + [Closing], closeSent := true) else w1
  }

  /** What can happen: a command is queued, the next one is taken, a pending credit is taken, or the loop ends. */
  datatype Event =
    | Queue(cmd: Cmd) | Take(ok1: bool, ok2: bool) | TakeCredit(frame: WireFrame, ok1: bool, ok2: bool)
    | Cancel(ok1: bool, ok2: bool) | PeerClose(ok: bool)

  function Turn(lim: Limits, w: Writer, ev: Event): (r: Writer) {
    match ev
    case Queue(cmd) => w.(log := w.log + [cmd])
    case TakeCredit(frame, ok1, ok2) =>
      if !w.running || w.closeSent then w else OnFrame(lim, w, Item(frame, false), ok1, ok2)
    case Cancel(ok1, ok2) => if w.running then OnCancel(w, ok1, ok2) else w
    case PeerClose(ok) => if w.running then OnPeerClose(w, ok) else w
    case Take(ok1, ok2) =>
      if !w.running || w.done >= |w.log| then w else
      var w1 := w.(done := w.done + 1);
      match w.log[w.done]
      case FrameCmd(frame) => OnFrame(lim, w1, Item(frame, true), ok1, ok2)
      case PongCmd => OnPong(w1, ok1, ok2)
      case FlushCmd => OnFlush(w1, w.done, ok1, ok2)
      case ShutdownCmd => OnShutdown(w1, ok1, ok2)
  }

  function Turns(lim: Limits, events: seq<Event>): (w: Writer)
    decreases |events|
  {
    if events == [] then Started() else Turn(lim, Turns(lim, events[..|events| - 1]), events[|events| - 1])
  }

  // ---- In-order transmission within the batch limits ----

  function Sent(sink: seq<Msg>): (items: seq<Item>) {
    if sink == [] then []
    else Sent(sink[..|sink| - 1]) + (if sink[|sink| - 1].Binary? then sink[|sink| - 1].items else [])
  }

  lemma SentAppend(sink: seq<Msg>, m: Msg)
    ensures Sent(sink + [m]) == Sent(sink) + (if m.Binary? then m.items else [])
  {
    assert (sink + [m])[..|sink|] == sink;
  }

  predicate BatchFits(lim: Limits, items: seq<Item>) {
    |items| <= lim.maxBatchFrames && (Weight(items) <= MaxBytes(lim) || |items| <= 1)
  }

  predicate MsgFits(lim: Limits, m: Msg) {
    m.Binary? ==> m.items != [] && BatchFits(lim, m.items)
  }

  /** Nothing but further close frames follows a close frame. */
  predicate QuietAfterClose(sink: seq<Msg>) {
    forall i, j :: 0 <= i < j < |sink| && sink[i].Closing? ==> sink[j].Closing?
  }

  /** The frames that the commands of a log stand for. */
  function QueuedFrames(log: seq<Cmd>): (fs: seq<Frame>) {
    if log == [] then []
    else QueuedFrames(log[..|log| - 1]) + (if log[|log| - 1].FrameCmd? then [log[|log| - 1].frame] else [])
  }

  function Picked(items: seq<Item>, queued: bool): (fs: seq<Frame>) {
    if items == [] then []
    else Picked(items[..|items| - 1], queued)
         + (if items[|items| - 1].queued == queued then [items[|items| - 1].frame] else [])
  }

  predicate WriterInv(lim: Limits, w: Writer) {
    && w.done <= |w.log|
    && (w.running ==> Sent(w.sink) + w.batch == w.taken) && Sent(w.sink) <= w.taken
    && (forall i :: 0 <= i < |w.sink| ==> MsgFits(lim, w.sink[i]))
    && BatchFits(lim, w.batch) && |w.batch| < lim.maxBatchFrames
    && (w.running && w.batch != [] ==> w.done < |w.log|)
    && (w.closeSent ==> w.batch == []) && QuietAfterClose(w.sink)
    && (!w.closeSent ==> forall i :: 0 <= i < |w.sink| ==> !w.sink[i].Closing?)
    && (w.running && !w.closeSent ==> Picked(w.taken, true) == QueuedFrames(w.log[..w.done]))
  }

  /** The invariant except for emptiness of a batch that is about to be flushed or kept. */
  predicate Mid(lim: Limits, w: Writer) {
    && w.done <= |w.log| && w.running && !w.closeSent
    && Sent(w.sink) + w.batch == w.taken
    && (forall i :: 0 <= i < |w.sink| ==> MsgFits(lim, w.sink[i]) && !w.sink[i].Closing?)
    && BatchFits(lim, w.batch)
  }

  lemma FlushKeeps(lim: Limits, w: Writer, ok: bool)
    requires lim.maxBatchFrames > 0 && Mid(lim, w)
    ensures var r := FlushBatch(w, ok);
            && r.batch == [] && r == w.(sink := r.sink, batch := [], running := r.running)
            && Sent(r.sink) <= r.taken && (r.running ==> Mid(lim, r) && Sent(r.sink) == r.taken)
            && (forall i :: 0 <= i < |r.sink| ==> MsgFits(lim, r.sink[i]) && !r.sink[i].Closing?)
  {
    hide Sent, Weight;
    SentAppend(w.sink, Binary(w.batch));
  }

  /** From the middle of a turn to its end: nothing is closing, and the batch is small or gone. */
  lemma Settled(lim: Limits, w: Writer)
    requires lim.maxBatchFrames > 0 && w.done <= |w.log| && !w.closeSent
    requires Sent(w.sink) <= w.taken && (w.running ==> Mid(lim, w)) && (!w.running ==> w.batch == [])
    requires forall i :: 0 <= i < |w.sink| ==> MsgFits(lim, w.sink[i]) && !w.sink[i].Closing?
    requires w.batch != [] ==> |w.batch| < lim.maxBatchFrames && w.done < |w.log|
    requires w.running ==> Picked(w.taken, true) == QueuedFrames(w.log[..w.done])
    ensures WriterInv(lim, w)
  {
    hide Sent, Picked, QueuedFrames, Weight;
  }

  lemma AppendKeeps(lim: Limits, w: Writer, item: Item)
    requires Mid(lim, w) && |w.batch| < lim.maxBatchFrames
    requires w.batch == [] || Weight(w.batch) + |EncodeFrame(item.frame)| <= MaxBytes(lim)
    ensures Mid(lim, Append(w, item))
    ensures Picked(Append(w, item).taken, true) == Picked(w.taken, true) + (if item.queued then [item.frame] else [])
  {
    hide Sent, MsgFits, EncodeFrame, Weight, Picked;
    WeightAppend(w.batch, item);
    PickedAppend(w.taken, item, true);
    assert Sent(w.sink) + (w.batch + [item]) == Sent(w.sink) + w.batch + [item];
  }

  lemma OnFrameKeeps(lim: Limits, w: Writer, item: Item, ok1: bool, ok2: bool)
    requires lim.maxBatchFrames > 0 && Mid(lim, w) && |w.batch| < lim.maxBatchFrames
    requires Picked(w.taken, true) + (if item.queued then [item.frame] else []) == QueuedFrames(w.log[..w.done])
    ensures WriterInv(lim, OnFrame(lim, w, item, ok1, ok2))
  {
    hide Sent, Weight, Picked, QueuedFrames, EncodeFrame, FlushBatch, WriterInv, MsgFits, BatchFits, Append;
    var w1 := if w.batch != [] && Weight(w.batch) + |EncodeFrame(item.frame)| > MaxBytes(lim)
              then FlushBatch(w, ok1) else w;
    FlushKeeps(lim, w, ok1);
    if !w1.running {
      Settled(lim, w1);
    } else {
      AppendKeeps(lim, w1, item);
      var w2 := Append(w1, item);
      FlushKeeps(lim, w2, ok2);
      AppendedFields(w1, item);
      var full := |w2.batch| >= lim.maxBatchFrames || Weight(w2.batch) >= MaxBytes(lim) || w2.done >= |w2.log|;
      Settled(lim, if full then FlushBatch(w2, ok2) else w2);
    }
  }

  lemma AppendedFields(w: Writer, item: Item)
    ensures Append(w, item) == w.(batch := Append(w, item).batch, taken := Append(w, item).taken)
  {
  }

  /** Every turn keeps the invariant. */
  lemma TurnKeeps(lim: Limits, w: Writer, ev: Event)
    requires lim.maxBatchFrames > 0 && WriterInv(lim, w)
    ensures WriterInv(lim, Turn(lim, w, ev))
  {
    match ev
    case Queue(cmd) =>
      assert w.done <= |w.log| ==> (w.log + [cmd])[..w.done] == w.log[..w.done];
      hide Sent, Weight, Picked, QueuedFrames, MsgFits, BatchFits;
    case TakeCredit(frame, ok1, ok2) =>
      if w.running && !w.closeSent { OnFrameKeeps(lim, w, Item(frame, false), ok1, ok2); }
    case Take(ok1, ok2) =>
      if w.running && w.done < |w.log| { TakeKeeps(lim, w, ok1, ok2); }
    case Cancel(ok1, ok2) => if w.running { CancelKeeps(lim, w, ok1, ok2); }
    case PeerClose(ok) => if w.running { PeerCloseKeeps(lim, w, ok); }
  }

  lemma CancelKeeps(lim: Limits, w: Writer, ok1: bool, ok2: bool)
    requires lim.maxBatchFrames > 0 && WriterInv(lim, w) && w.running
    ensures WriterInv(lim, OnCancel(w, ok1, ok2))
  {
    hide Sent, Weight, Picked, QueuedFrames;
    if !w.closeSent { FlushKeeps(lim, w, ok1); }
    SentAppend(FlushBatch(w, ok1).sink, Closing);
  }

  lemma PeerCloseKeeps(lim: Limits, w: Writer, ok: bool)
    requires lim.maxBatchFrames > 0 && WriterInv(lim, w) && w.running
    ensures WriterInv(lim, OnPeerClose(w, ok))
  {
    hide Sent, Picked, QueuedFrames, Weight;
    SentAppend(w.sink, Closing);
  }

  lemma TakenLog(w: Writer)
    requires w.done < |w.log|
    ensures QueuedFrames(w.log[..w.done + 1])
            == QueuedFrames(w.log[..w.done]) + (if w.log[w.done].FrameCmd? then [w.log[w.done].frame] else [])
  {
    assert w.log[..w.done + 1][..w.done] == w.log[..w.done];
  }

  lemma TakeKeeps(lim: Limits, w: Writer, ok1: bool, ok2: bool)
    requires lim.maxBatchFrames > 0 && WriterInv(lim, w) && w.running && w.done < |w.log|
    ensures WriterInv(lim, Turn(lim, w, Take(ok1, ok2)))
  {
    hide Sent, Weight, Picked, QueuedFrames, MsgFits, BatchFits, OnFrame, FlushBatch;
    var w1, cmd := w.(done := w.done + 1), w.log[w.done];
    TakenLog(w);
    if w.closeSent {
      ClosedTurn(lim, w, ok1, ok2);
    } else if cmd.FrameCmd? {
      assert Mid(lim, w1);
      OnFrameKeeps(lim, w1, Item(cmd.frame, true), ok1, ok2);
    } else {
      assert Mid(lim, w1);
      FlushKeeps(lim, w1, ok1);
      ControlTurn(lim, FlushBatch(w1, ok1), cmd, w.done, ok2);
    }
  }

  /** After the batch was flushed for a pong, a flush or a shutdown. */
  lemma ControlTurn(lim: Limits, w: Writer, cmd: Cmd, ticket: nat, ok: bool)
    requires lim.maxBatchFrames > 0 && w.done <= |w.log| && !w.closeSent && w.batch == []
    requires Sent(w.sink) <= w.taken && (w.running ==> Mid(lim, w) && Sent(w.sink) == w.taken)
    requires forall i :: 0 <= i < |w.sink| ==> MsgFits(lim, w.sink[i]) && !w.sink[i].Closing?
    requires w.running ==> Picked(w.taken, true) == QueuedFrames(w.log[..w.done])
    ensures WriterInv(lim, w)
    ensures w.running ==> WriterInv(lim, w.(sink := w.sink + [Pong])) && WriterInv(lim, w.(running := false))
    ensures w.running ==> WriterInv(lim, w.(sink := w.sink + [Closing], closeSent := true))
    ensures WriterInv(lim, w.(acks := w.acks[ticket := ok]))
  {
    hide Sent, Weight, Picked, QueuedFrames;
    SentAppend(w.sink, Pong);
    SentAppend(w.sink, Closing);
  }

  /** Once a close frame is out, the loop only answers flushes and further shutdowns. */
  lemma ClosedTurn(lim: Limits, w: Writer, ok1: bool, ok2: bool)
    requires WriterInv(lim, w) && w.running && w.done < |w.log| && w.closeSent
    ensures WriterInv(lim, Turn(lim, w, Take(ok1, ok2)))
  {
    hide Sent, Weight, Picked, QueuedFrames, EncodeFrame;
    SentAppend(w.sink, Closing);
  }

  /** Over every sequence of events: what is sent and batched is what was taken, in order; every message
      keeps the limits; a batch is only left waiting while commands are queued behind it; after the close
      frame nothing but close frames is written. */
  lemma {:induction false} WriterRun(lim: Limits, events: seq<Event>)
    requires lim.maxBatchFrames > 0
    ensures WriterInv(lim, Turns(lim, events))
  {
    hide Turn;
    if events == [] {
      StartedOk(lim);
    } else {
      hide WriterInv;
      WriterRun(lim, events[..|events| - 1]);
      TurnKeeps(lim, Turns(lim, events[..|events| - 1]), events[|events| - 1]);
    }
  }

  lemma StartedOk(lim: Limits)
    requires lim.maxBatchFrames > 0
    ensures WriterInv(lim, Started())
  {
  }

  lemma PickedAppend(items: seq<Item>, i: Item, queued: bool)
    ensures Picked(items + [i], queued) == Picked(items, queued) + (if i.queued == queued then [i.frame] else [])
  {
    assert (items + [i])[..|items|] == items;
  }

  // ---- The flush barrier ----

  lemma {:induction false} PickedPrefix(a: seq<Item>, b: seq<Item>)
    requires a <= b
    ensures Picked(a, true) <= Picked(b, true)
  {
    if |a| < |b| {
      PickedPrefix(a, b[..|b| - 1]);
    } else {
      assert a == b;
    }
  }

  /** A flush answered before closing began: every frame queued ahead of it is in the sink. */
  predicate AckOk(w: Writer, t: nat) {
    && t < w.done <= |w.log|
    && (t in w.acks && w.acks[t] ==> QueuedFrames(w.log[..t]) <= Picked(Sent(w.sink), true))
  }

  predicate AcksOk(w: Writer) {
    forall t <- w.acks :: AckOk(w, t)
  }

  /** Sinks only grow. */
  lemma TurnGrows(lim: Limits, w: Writer, ev: Event)
    ensures var r := Turn(lim, w, ev); w.log <= r.log && w.sink <= r.sink && w.done <= r.done
  {
    hide OnFrame, OnPong, OnFlush, OnShutdown, OnCancel, OnPeerClose;
  }

  lemma {:induction false} SentPrefix(a: seq<Msg>, b: seq<Msg>)
    requires a <= b
    ensures Sent(a) <= Sent(b)
  {
    if |a| < |b| {
      SentPrefix(a, b[..|b| - 1]);
    } else {
      assert a == b;
    }
  }

  lemma OldAckKeeps(lim: Limits, w: Writer, ev: Event, t: nat)
    requires AckOk(w, t) && WriterInv(lim, w)
    requires t in w.acks && t in Turn(lim, w, ev).acks ==> Turn(lim, w, ev).acks[t] == w.acks[t]
    requires t in w.acks
    ensures Turn(lim, w, ev).done <= |Turn(lim, w, ev).log| ==> AckOk(Turn(lim, w, ev), t)
  {
    hide Turn, Sent, Picked, QueuedFrames, WriterInv;
    var r := Turn(lim, w, ev);
    TurnGrows(lim, w, ev);
    SentPrefix(w.sink, r.sink);
    PickedPrefix(Sent(w.sink), Sent(r.sink));
    assert r.log[..t] == w.log[..t];
  }

  /** The flush being answered: the batch is empty, so all frames taken are in the sink. */
  lemma NewAck(lim: Limits, w: Writer, ok1: bool, ok2: bool)
    requires lim.maxBatchFrames > 0 && WriterInv(lim, w) && w.running && w.done < |w.log| && w.log[w.done].FlushCmd?
    ensures var r := Turn(lim, w, Take(ok1, ok2));
            && r.acks.Keys <= w.acks.Keys + {w.done}
            && (forall t :: t != w.done && t in r.acks ==> t in w.acks && r.acks[t] == w.acks[t])
            && (w.done in r.acks && w.done !in w.acks ==> AckOk(r, w.done))
  {
    hide Sent, Picked, QueuedFrames, Weight, MsgFits, BatchFits;
    var w1 := w.(done := w.done + 1);
    TakenLog(w);
    if !w.closeSent {
      assert Mid(lim, w1);
      FlushKeeps(lim, w1, ok1);
    }
  }

  lemma OtherAcks(lim: Limits, w: Writer, ev: Event)
    requires !(ev.Take? && w.running && w.done < |w.log| && w.log[w.done].FlushCmd?)
    ensures Turn(lim, w, ev).acks == w.acks
  {
    hide OnFrame, OnPong, OnFlush, OnShutdown, OnCancel, OnPeerClose;
  }

  lemma TurnAcks(lim: Limits, w: Writer, ev: Event)
    requires lim.maxBatchFrames > 0 && WriterInv(lim, w) && AcksOk(w)
    ensures AcksOk(Turn(lim, w, ev))
  {
    var r := Turn(lim, w, ev);
    TurnKeeps(lim, w, ev);
    assert r.done <= |r.log|;
    hide Turn, WriterInv, AckOk;
    if ev.Take? && w.running && w.done < |w.log| && w.log[w.done].FlushCmd? {
      NewAck(lim, w, ev.ok1, ev.ok2);
      assert w.done !in w.acks by { Unanswered(w, w.done); }
    } else {
      OtherAcks(lim, w, ev);
    }
    forall t | t in r.acks ensures AckOk(r, t) {
      if t in w.acks { OldAckKeeps(lim, w, ev, t); }
    }
  }

  lemma Unanswered(w: Writer, t: nat)
    requires AcksOk(w) && w.done <= t
    ensures t !in w.acks
  {
  }

  /** An asynchronous write handle: positions of the frames it had accepted, and the flush it waits for. */
  datatype Handle = Handle(accepted: seq<nat>, waiter: Option<nat>)

  datatype Scene = Scene(w: Writer, handles: seq<Handle>)

  datatype SceneEvent = Loop(ev: Event) | PollWrite(h: nat, frame: WireFrame) | PollFlush(h: nat)

  /** Polling a flush finds its answer ready. */
  predicate FlushReady(sc: Scene, h: nat) {
    h < |sc.handles| && sc.handles[h].waiter.Some? && sc.handles[h].waiter.value in sc.w.acks
  }

  /** An accepted write forgets an unfinished flush, so the next flush queues a new command behind it. */
  function Act(lim: Limits, sc: Scene, e: SceneEvent): (r: Scene) {
    match e
    case Loop(ev) => sc.(w := Turn(lim, sc.w, ev))
    case PollWrite(h, frame) =>
      if h >= |sc.handles| then sc
      else
        sc.(w := sc.w.(log := sc.w.log + [FrameCmd(frame)]),
            handles := sc.handles[h := Handle(sc.handles[h].accepted + [|sc.w.log|], None)])
    case PollFlush(h) =>
      if h >= |sc.handles| then sc
      else if sc.handles[h].waiter.None? then
        sc.(w := sc.w.(log := sc.w.log + [FlushCmd]),
            handles := sc.handles[h := sc.handles[h].(waiter := Some(|sc.w.log|))])
      else if FlushReady(sc, h) then sc.(handles := sc.handles[h := sc.handles[h].(waiter := None)])
      else sc
  }

  function Acts(lim: Limits, handles: nat, events: seq<SceneEvent>): (sc: Scene)
    decreases |events|
  {
    if events == [] then Scene(Started(), seq(handles, i requires 0 <= i < handles => Handle([], None)))
    else Act(lim, Acts(lim, handles, events[..|events| - 1]), events[|events| - 1])
  }

  predicate FlusherOk(log: seq<Cmd>, h: Handle) {
    && (forall i :: 0 <= i < |h.accepted| ==> h.accepted[i] < |log| && log[h.accepted[i]].FrameCmd?)
    && (h.waiter.Some? ==>
          && h.waiter.value < |log| && log[h.waiter.value].FlushCmd?
          && forall i :: 0 <= i < |h.accepted| ==> h.accepted[i] < h.waiter.value)
  }

  predicate SceneOk(lim: Limits, sc: Scene) {
    WriterInv(lim, sc.w) && AcksOk(sc.w) && forall h :: 0 <= h < |sc.handles| ==> FlusherOk(sc.w.log, sc.handles[h])
  }

  lemma QueueKeeps(lim: Limits, w: Writer, cmd: Cmd)
    requires lim.maxBatchFrames > 0 && WriterInv(lim, w) && AcksOk(w)
    ensures WriterInv(lim, w.(log := w.log + [cmd])) && AcksOk(w.(log := w.log + [cmd]))
  {
    hide WriterInv, AcksOk;
    TurnKeeps(lim, w, Queue(cmd));
    TurnAcks(lim, w, Queue(cmd));
  }

  lemma LongerLog(log: seq<Cmd>, log': seq<Cmd>, h: Handle)
    requires FlusherOk(log, h) && log <= log'
    ensures FlusherOk(log', h)
  {
  }

  lemma ActKeeps(lim: Limits, sc: Scene, e: SceneEvent)
    requires lim.maxBatchFrames > 0 && SceneOk(lim, sc)
    ensures SceneOk(lim, Act(lim, sc, e))
  {
    hide WriterInv, AcksOk, Turn;
    var r := Act(lim, sc, e);
    match e
    case Loop(ev) =>
      TurnKeeps(lim, sc.w, ev);
      TurnAcks(lim, sc.w, ev);
      TurnGrows(lim, sc.w, ev);
      forall h | 0 <= h < |sc.handles| ensures FlusherOk(r.w.log, r.handles[h])
      { LongerLog(sc.w.log, r.w.log, sc.handles[h]); }
    case PollWrite(h, frame) => QueueKeeps(lim, sc.w, FrameCmd(frame));
    case PollFlush(h) => QueueKeeps(lim, sc.w, FlushCmd);
  }

  lemma {:induction false} SceneRun(lim: Limits, handles: nat, events: seq<SceneEvent>)
    requires lim.maxBatchFrames > 0
    ensures SceneOk(lim, Acts(lim, handles, events))
  {
    hide SceneOk, Act;
    if events == [] {
      SceneStart(lim, handles);
    } else {
      SceneRun(lim, handles, events[..|events| - 1]);
      ActKeeps(lim, Acts(lim, handles, events[..|events| - 1]), events[|events| - 1]);
    }
  }

  lemma SceneStart(lim: Limits, handles: nat)
    requires lim.maxBatchFrames > 0
    ensures SceneOk(lim, Acts(lim, handles, []))
  {
    StartedOk(lim);
  }

  /** Flush barrier: when polling a flush reports success for a flush answered before closing began, every
      data frame that the handle had accepted is already in the sink, in the order of the queue. */
  lemma FlushBarrier(lim: Limits, handles: nat, events: seq<SceneEvent>, h: nat)
    requires lim.maxBatchFrames > 0
    ensures var sc := Acts(lim, handles, events);
            FlushReady(sc, h) ==>
              var t := sc.handles[h].waiter.value;
              && t <= |sc.w.log|
              && (forall i :: 0 <= i < |sc.handles[h].accepted| ==>
                    sc.handles[h].accepted[i] < t && sc.w.log[sc.handles[h].accepted[i]].FrameCmd?)
              && (sc.w.acks[t] ==> QueuedFrames(sc.w.log[..t]) <= Picked(Sent(sc.w.sink), true))
  {
    hide Acts, Sent, Picked, QueuedFrames, WriterInv;
    SceneRun(lim, handles, events);
    var sc := Acts(lim, handles, events);
    if FlushReady(sc, h) {
      assert FlusherOk(sc.w.log, sc.handles[h]);
      assert AckOk(sc.w, sc.handles[h].waiter.value);
    }
  }

  // ---- What each turn writes ----

  /** The message that the batch makes, if there is one. */
  function BatchMessage(w: Writer): (ms: seq<Msg>) {
    if w.batch == [] then [] else [Binary(w.batch)]
  }

  /** The sink took the batch, or there was none. */
  predicate BatchSent(w: Writer, ok: bool) {
    w.batch == [] || ok
  }

  /** Taking a flush acknowledges it if and only if the batch and the sink's own flush went through; the answer says
      whether closing had begun. The loop goes on unless the batch failed. */
  lemma FlushAnswered(lim: Limits, w: Writer, ok1: bool, ok2: bool)
    requires w.running && w.done < |w.log| && w.log[w.done].FlushCmd? && w.done !in w.acks
    ensures var r := Turn(lim, w, Take(ok1, ok2));
            && (w.done in r.acks <==> BatchSent(w, ok1) && ok2)
            && (w.done in r.acks ==> r.acks[w.done] == !w.closeSent)
            && (r.running <==> BatchSent(w, ok1)) && r.batch == [] && r.done == w.done + 1
            && r.sink == w.sink + (if BatchSent(w, ok1) then BatchMessage(w) else [])
  {
  }

  /** A pong follows what is batched, unless closing has begun; a sink that fails ends the loop. */
  lemma PongWritten(lim: Limits, w: Writer, ok1: bool, ok2: bool)
    requires w.running && w.done < |w.log| && w.log[w.done].PongCmd?
    ensures var r := Turn(lim, w, Take(ok1, ok2));
            if w.closeSent then r == w.(done := w.done + 1)
            else && (r.running <==> BatchSent(w, ok1) && ok2) && r.batch == []
                 && r.sink == w.sink + (if !BatchSent(w, ok1) then [] else if ok2 then BatchMessage(w) + [Pong]
                     else BatchMessage(w))
  {
  }

  /** A shutdown sends what is batched and then the close frame, and is remembered. */
  lemma ShutdownWritten(lim: Limits, w: Writer, ok1: bool, ok2: bool)
    requires w.running && w.done < |w.log| && w.log[w.done].ShutdownCmd?
    ensures var r := Turn(lim, w, Take(ok1, ok2));
            && (r.running <==> BatchSent(w, ok1) && ok2) && (r.closeSent <==> w.closeSent || r.running) && r.batch == []
            && r.sink == w.sink + (if !BatchSent(w, ok1) then []
                                   else if ok2 then BatchMessage(w) + [Closing] else BatchMessage(w))
  {
  }

  /** Cancellation sends what is batched and closes, as far as the sink allows; a close of the peer drops the batch and
      is answered. Both end the loop. */
  lemma EndingWritten(lim: Limits, w: Writer, ok1: bool, ok2: bool)
    requires w.running
    ensures var r := Turn(lim, w, Cancel(ok1, ok2));
            && !r.running
            && r.sink == w.sink + (if BatchSent(w, ok1) then BatchMessage(w) else []) + (if ok2 then [Closing] else [])
    ensures var r := Turn(lim, w, PeerClose(ok2));
            !r.running && r.batch == [] && r.sink == w.sink + (if ok2 then [Closing] else [])
  {
  }

  /** A frame waits in the batch if and only if it leaves room there and more commands are queued. */
  lemma FrameWaits(lim: Limits, w: Writer, frame: WireFrame, queued: bool)
    requires w.running && !w.closeSent
    ensures var item, r := Item(frame, queued), OnFrame(lim, w, Item(frame, queued), true, true);
            && r.running && r.taken == w.taken + [item]
            && (r.sink == w.sink <==>
                  && |w.batch| + 1 < lim.maxBatchFrames && Weight(w.batch) + |EncodeFrame(frame)| < MaxBytes(lim)
                  && w.done < |w.log|)
            && (r.sink == w.sink ==> r.batch == w.batch + [item])
  {
    hide Weight, EncodeFrame;
    WeightAppend(w.batch, Item(frame, queued));
    WeightAppend([], Item(frame, queued));
    assert [] + [Item(frame, queued)] == [Item(frame, queued)];
  }

  function TakeTimes(k: nat): (events: seq<SceneEvent>) {
    seq(k, i => Loop(Take(true, true)))
  }

  /** With a sink that works, each turn takes a command and the loop goes on. */
  lemma TurnGoesOn(lim: Limits, w: Writer)
    requires w.running && w.done < |w.log|
    ensures var r := Turn(lim, w, Take(true, true)); r.running && r.done == w.done + 1 && r.log == w.log
  {
    hide Weight, EncodeFrame;
  }

  /** No flush is left waiting: once the loop has come to it, on a sink that works, every handle that waits for a flush
      finds its answer. */
  lemma {:induction false} FlushComes(lim: Limits, handles: nat, events: seq<SceneEvent>, h: nat)
    requires lim.maxBatchFrames > 0
    requires var sc := Acts(lim, handles, events);
             sc.w.running && h < |sc.handles| && sc.handles[h].waiter.Some? && sc.w.done <= sc.handles[h].waiter.value
    ensures var sc := Acts(lim, handles, events);
            FlushReady(Acts(lim, handles, events + TakeTimes(sc.handles[h].waiter.value + 1 - sc.w.done)), h)
    decreases var sc := Acts(lim, handles, events); sc.handles[h].waiter.value - sc.w.done
  {
    hide WriterInv, Turn;
    var sc := Acts(lim, handles, events);
    var t, m := sc.handles[h].waiter.value, Loop(Take(true, true));
    SceneRun(lim, handles, events);
    assert FlusherOk(sc.w.log, sc.handles[h]);
    assert (events + [m])[..|events|] == events;
    TurnGoesOn(lim, sc.w);
    if t == sc.w.done {
      Unanswered(sc.w, t);
      FlushAnswered(lim, sc.w, true, true);
      assert TakeTimes(1) == [m];
    } else {
      FlushComes(lim, handles, events + [m], h);
      assert events + [m] + TakeTimes(t - sc.w.done) == events + TakeTimes(t + 1 - sc.w.done);
    }
  }
}
