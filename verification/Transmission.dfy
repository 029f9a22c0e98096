/** From frames to WebSocket messages and back: the writer task over bytes, the browser's batching
    loop, and what the receiving side decodes. */
module Transmission {
  import opened VarInts
  import opened Frames
  import opened SessionLimits
  import opened Endpoints
  import opened EndpointInvariant
  import opened EndpointTheorems
  import opened WriterLoop

  function Bytes(items: seq<Item>): (s: seq<Byte>)
    ensures |s| == Weight(items)
    ensures s == [] <==> items == []
  {
    if items == [] then [] else Bytes(items[..|items| - 1]) + EncodeFrame(items[|items| - 1].frame)
  }

  lemma BytesAppend(items: seq<Item>, item: Item)
    ensures Bytes(items + [item]) == Bytes(items) + EncodeFrame(item.frame)
  {
    assert (items + [item])[..|items|] == items;
  }

  function FramesOf(items: seq<Item>): (fs: seq<Frame>)
    ensures |fs| == |items|
  {
    seq(|items|, i requires 0 <= i < |items| => items[i].frame)
  }

  datatype Packet = Data(bytes: seq<Byte>) | PongPacket | ClosePacket

  /** A message of the model as it goes over the WebSocket. */
  function OnWire(m: Msg): (p: Packet) {
    match m
    case Binary(items) => Data(Bytes(items))
    case Pong => PongPacket
    case Closing => ClosePacket
  }

  function AllOnWire(ms: seq<Msg>): (ps: seq<Packet>)
    ensures |ps| == |ms|
  {
    seq(|ms|, i requires 0 <= i < |ms| => OnWire(ms[i]))
  }

  lemma OneMorePacket(sink: seq<Msg>, m: Msg)
    ensures AllOnWire(sink + [m]) == AllOnWire(sink) + [OnWire(m)]
  {
  }

  /** The writer task: its command queue, a byte buffer, a frame count and the sink. The model it follows is ghost. */
  class WriterTask {
    var queue: seq<Cmd>
    var batch: seq<Byte>
    var batchFrames: nat
    var closeSent: bool
    var running: bool
    var sink: seq<Packet>
    ghost var model: Writer

    ghost predicate Valid()
      reads this
    {
      && model.done <= |model.log| && queue == model.log[model.done..]
      && batch == Bytes(model.batch) && batchFrames == |model.batch|
      && closeSent == model.closeSent && running == model.running && sink == AllOnWire(model.sink)
    }

    constructor ()
      ensures Valid() && model == Started()
    {
      queue, batch, batchFrames, closeSent, running, sink := [], [], 0, false, true, [];
      model := Started();
    }

    method Enqueue(cmd: Cmd)
      requires Valid()
      modifies this
      ensures Valid() && model == old(model).(log := old(model).log + [cmd])
    {
      queue := queue + [cmd];
      model := model.(log := model.log + [cmd]);
    }

    method Flush(ok: bool)
      requires Valid() && running
      modifies this
      ensures Valid() && model == FlushBatch(old(model), ok) && queue == old(queue)
    {
      if batch == [] { return; }
      var payload := batch;
      batch := [];
      batchFrames := 0;
      if ok { sink := sink + [Data(payload)]; } else { running := false; }
      model := FlushBatch(model, ok);
    }

    /** A frame, from the queue or a pending credit. */
    method TakeFrame(lim: Limits, frame: WireFrame, queued: bool, ok1: bool, ok2: bool)
      requires Valid() && running
      modifies this
      ensures Valid() && model == OnFrame(lim, old(model), Item(frame, queued), ok1, ok2)
    {
      hide EncodeFrame, Bytes, Weight, AllOnWire, FlushBatch, Header;
      if closeSent { return; }
      ghost var item := Item(frame, queued);
      var encoded := Frames.WriteFrame(frame);
      var maxBytes := if lim.maxBatchBytes <= lim.maxWsMessageSize then lim.maxBatchBytes else lim.maxWsMessageSize;
      if batch != [] && |batch| + |encoded| > maxBytes {
        Flush(ok1);
        if !running { return; }
      }
      BytesAppend(model.batch, item);
      batch := batch + encoded;
      batchFrames := batchFrames + 1;
      model := Append(model, item);
      if batchFrames >= lim.maxBatchFrames || |batch| >= maxBytes || queue == [] { Flush(ok2); }
    }

    method TakePong(ok1: bool, ok2: bool)
      requires Valid() && running
      modifies this
      ensures Valid() && model == OnPong(old(model), ok1, ok2)
    {
      if closeSent { return; }
      Flush(ok1);
      if !running { return; }
      if ok2 { sink, model := sink + [PongPacket], model.(sink := model.sink + [Pong]); }
      else { running, model := false, model.(running := false); }
    }

    method TakeFlush(ghost ticket: nat, ok1: bool, ok2: bool) returns (answered: bool)
      requires Valid() && running
      modifies this
      ensures Valid() && model == OnFlush(old(model), ticket, ok1, ok2)
      ensures answered <==> running && ok2
      ensures running <==> old(batch) == [] || ok1
      ensures answered ==> ticket in model.acks && model.acks[ticket] == !closeSent
      ensures batch == [] && (running ==> sink == old(sink) + (if old(batch) == [] then [] else [Data(old(batch))]))
    {
      Flush(ok1);
      answered := running && ok2;
      if answered { model := model.(acks := model.acks[ticket := !closeSent]); }
    }

    method TakeShutdown(ok1: bool, ok2: bool)
      requires Valid() && running
      modifies this
      ensures Valid() && model == OnShutdown(old(model), ok1, ok2)
    {
      hide Bytes, FlushBatch, Extends, AllOnWire;
      Flush(ok1);
      if !running { return; }
      if ok2 {
        OneMorePacket(model.sink, Closing);
        sink, closeSent := sink + [ClosePacket], true;
        model := model.(sink := model.sink + [Closing], closeSent := true);
      } else {
        running, model := false, model.(running := false);
      }
    }

    /** Cancelled: the batch is sent and the transport closed on a best-effort basis. */
    method TakeCancel(ok1: bool, ok2: bool)
      requires Valid() && running
      modifies this
      ensures Valid() && model == OnCancel(old(model), ok1, ok2)
    {
      hide Bytes, FlushBatch, Extends, AllOnWire;
      Flush(ok1);
      if ok2 {
        OneMorePacket(model.sink, Closing);
        sink, closeSent := sink + [ClosePacket], true;
      }
      running := false;
      model := OnCancel(old(model), ok1, ok2);
    }

    method TakePeerClose(ok: bool)
      requires Valid() && running
      modifies this
      ensures Valid() && model == OnPeerClose(old(model), ok)
    {
      hide Extends, AllOnWire;
      OneMorePacket(model.sink, Closing);
      batch, batchFrames, running := [], 0, false;
      if ok { sink, closeSent := sink + [ClosePacket], true; }
      model := OnPeerClose(model, ok);
    }

    /** Take the next queued command. */
    method TakeNext(lim: Limits, ok1: bool, ok2: bool)
      requires Valid() && running && queue != []
      modifies this
      ensures Valid() && model == Turn(lim, old(model), Take(ok1, ok2))
    {
      hide OnFrame, OnPong, OnFlush, OnShutdown, AllOnWire, Bytes;
      ghost var ticket := model.done;
      var cmd := queue[0];
      queue := queue[1..];
      model := model.(done := model.done + 1);
      match cmd {
        case FrameCmd(frame) => TakeFrame(lim, frame, true, ok1, ok2);
        case PongCmd => TakePong(ok1, ok2);
        case FlushCmd => var _ := TakeFlush(ticket, ok1, ok2);
        case ShutdownCmd => TakeShutdown(ok1, ok2);
      }
    }

    method React(lim: Limits, ev: Event)
      requires Valid()
      modifies this
      ensures Valid() && model == Turn(lim, old(model), ev)
    {
      hide OnFrame, OnPong, OnFlush, OnShutdown, OnCancel, OnPeerClose, AllOnWire, Bytes;
      match ev {
        case Queue(cmd) => Enqueue(cmd);
        case Take(ok1, ok2) => if running && queue != [] { TakeNext(lim, ok1, ok2); }
        case TakeCredit(frame, ok1, ok2) => if running && !closeSent { TakeFrame(lim, frame, false, ok1, ok2); }
        case Cancel(ok1, ok2) => if running { TakeCancel(ok1, ok2); }
        case PeerClose(ok) => if running { TakePeerClose(ok); }
      }
    }

    /** The whole loop, whatever happens in whatever order: it is a run of the model, so it keeps the invariant, and
        while the sink works and nothing is queued no byte is left behind. */
    method Serve(lim: Limits, events: seq<Event>)
      requires Valid() && model == Started() && lim.maxBatchFrames > 0
      modifies this
      ensures Valid() && model == Turns(lim, events) && WriterInv(lim, model)
      ensures running && queue == [] ==> batch == []
    {
      for i := 0 to |events|
        invariant Valid() && model == Turns(lim, events[..i])
      {
        hide Valid, Turn;
        assert events[..i + 1][..i] == events[..i];
        React(lim, events[i]);
      }
      assert events[..|events|] == events;
      WriterRun(lim, events);
      hide Turns, AllOnWire, Sent, Picked, QueuedFrames;
    }
  }

  // ---- The browser's batching loop ----

  /** What one round of the loop did: the message it sends, the queue it leaves, the frame it carries over. */
  datatype Round = Round(batch: seq<Item>, rest: seq<Item>, carried: Option<Item>)

  function Fill(lim: Limits, batch: seq<Item>, queue: seq<Item>): (r: Round)
    decreases |queue|
  {
    if |batch| >= lim.maxBatchFrames || Weight(batch) >= MaxBytes(lim) || queue == [] then Round(batch, queue, None)
    else if batch != [] && Weight(batch) + |EncodeFrame(queue[0].frame)| > MaxBytes(lim)
    then Round(batch, queue[1..], Some(queue[0]))
    else Fill(lim, batch + [queue[0]], queue[1..])
  }

  function Maybe(i: Option<Item>): (items: seq<Item>) {
    match i case Some(item) => [item] case None => []
  }

  /** A round loses and reorders nothing and sends at least what it started with, within the limits. */
  lemma {:induction false} FillKeeps(lim: Limits, batch: seq<Item>, queue: seq<Item>)
    requires BatchFits(lim, batch) && batch != []
    ensures var r := Fill(lim, batch, queue);
            && r.batch + Maybe(r.carried) + r.rest == batch + queue
            && batch <= r.batch && BatchFits(lim, r.batch)
    decreases |queue|
  {
    hide EncodeFrame, Weight;
    if |batch| < lim.maxBatchFrames && Weight(batch) < MaxBytes(lim) && queue != [] {
      WeightAppend(batch, queue[0]);
      if Weight(batch) + |EncodeFrame(queue[0].frame)| <= MaxBytes(lim)
      { FillKeeps(lim, batch + [queue[0]], queue[1..]); }
    }
  }

  /** A round ends only for a reason: the batch is full, the next frame does not fit and is carried over, or nothing is
      left. */
  lemma {:induction false} FillGreedy(lim: Limits, batch: seq<Item>, queue: seq<Item>)
    requires batch != []
    ensures var r := Fill(lim, batch, queue);
            if r.carried.Some? then Weight(r.batch) + |EncodeFrame(r.carried.value.frame)| > MaxBytes(lim)
            else |r.batch| >= lim.maxBatchFrames || Weight(r.batch) >= MaxBytes(lim) || r.rest == []
    decreases |queue|
  {
    hide EncodeFrame, Weight;
    if |batch| < lim.maxBatchFrames && Weight(batch) < MaxBytes(lim) && queue != []
       && Weight(batch) + |EncodeFrame(queue[0].frame)| <= MaxBytes(lim) {
      FillGreedy(lim, batch + [queue[0]], queue[1..]);
    }
  }

  /** The loop itself, over bytes. */
  method FillBatch(lim: Limits, first: Item, queue: seq<Item>)
      returns (message: seq<Byte>, taken: nat, carried: Option<Item>)
    requires lim.maxBatchFrames > 0
    ensures taken <= |queue|
    ensures var r := Fill(lim, [first], queue);
            message == Bytes(r.batch) && queue[taken..] == r.rest && carried == r.carried
  {
    hide EncodeFrame, Weight, Bytes;
    var maxBytes := if lim.maxBatchBytes <= lim.maxWsMessageSize then lim.maxBatchBytes else lim.maxWsMessageSize;
    ghost var batch := [first];
    BytesAppend([], first);
    assert [] + [first] == [first];
    message := Frames.WriteFrame(first.frame);
    var frames := 1;
    taken, carried := 0, None;
    while true
      invariant taken <= |queue| && carried.None?
      invariant message == Bytes(batch) && frames == |batch| && batch != []
      invariant Fill(lim, [first], queue) == Fill(lim, batch, queue[taken..])
      decreases |queue| - taken
    {
      if frames >= lim.maxBatchFrames || |message| >= maxBytes { break; }
      if taken == |queue| { break; }
      var item := queue[taken];
      assert queue[taken..][1..] == queue[taken + 1..];
      taken := taken + 1;
      var next := Frames.WriteFrame(item.frame);
      if |message| + |next| > maxBytes {
        carried := Some(item);
        break;
      }
      BytesAppend(batch, item);
      batch := batch + [item];
      message := message + next;
      frames := frames + 1;
    }
  }

  /** The browser session's writer: its queue, the frame carried over, the messages sent, and every frame ever queued
      or taken as a credit. A failed send ends its loop. */
  datatype Browser = Browser(
    queue: seq<Item>, carried: Option<Item>, sent: seq<Msg>, pushed: seq<Frame>, credits: seq<Frame>, running: bool)

  /** A frame is queued, or a round starts with the carried frame, a pending credit or the queue's head. */
  datatype BrowserEvent = Push(frame: WireFrame) | Send(credit: Option<WireFrame>, ok: bool)

  function SendRound(lim: Limits, b: Browser, first: Item, queue: seq<Item>, ok: bool): (r: Browser) {
    var round := Fill(lim, [first], queue);
    if ok then b.(queue := round.rest, carried := round.carried, sent := b.sent + [Binary(round.batch)])
    else b.(queue := round.rest, carried := round.carried, running := false)
  }

  function BrowserTurn(lim: Limits, b: Browser, ev: BrowserEvent): (r: Browser) {
    match ev
    case Push(frame) => b.(queue := b.queue + [Item(frame, true)], pushed := b.pushed + [frame])
    case Send(credit, ok) =>
      if !b.running then b
      else if b.carried.Some? then SendRound(lim, b, b.carried.value, b.queue, ok)
      else if credit.Some?
      then SendRound(lim, b.(credits := b.credits + [credit.value]), Item(credit.value, false), b.queue, ok)
      else if b.queue != [] then SendRound(lim, b, b.queue[0], b.queue[1..], ok)
      else b
  }

  function BrowserTurns(lim: Limits, events: seq<BrowserEvent>): (b: Browser)
    decreases |events|
  {
    if events == [] then Browser([], None, [], [], [], true)
    else BrowserTurn(lim, BrowserTurns(lim, events[..|events| - 1]), events[|events| - 1])
  }

  /** Everything sent, then everything still to be sent. */
  function Outgoing(b: Browser): (items: seq<Item>) {
    Sent(b.sent) + Maybe(b.carried) + b.queue
  }

  lemma {:induction false} PickedSplits(a: seq<Item>, b: seq<Item>, queued: bool)
    ensures Picked(a + b, queued) == Picked(a, queued) + Picked(b, queued)
  {
    hide Picked;
    if b == [] {
      assert a + b == a;
      NonePicked(queued);
    } else {
      var most, last := b[..|b| - 1], b[|b| - 1];
      PickedSplits(a, most, queued);
      PickedAppend(most, last, queued);
      PickedAppend(a + most, last, queued);
      assert most + [last] == b && a + b == (a + most) + [last];
    }
  }

  lemma NonePicked(queued: bool)
    ensures Picked([], queued) == []
  {
  }

  /** While the loop runs nothing is lost; once it has stopped, what was sent is where it got to. */
  predicate BrowserInv(lim: Limits, b: Browser) {
    && (b.running ==> Picked(Outgoing(b), true) == b.pushed && Picked(Outgoing(b), false) == b.credits)
    && Picked(Sent(b.sent), true) <= b.pushed && Picked(Sent(b.sent), false) <= b.credits
    && (forall i :: 0 <= i < |b.sent| ==> b.sent[i].Binary? && MsgFits(lim, b.sent[i]))
    && (b.running ==> forall i :: 0 <= i < |b.queue| ==> b.queue[i].queued)
  }

  lemma SendRoundKeeps(lim: Limits, b: Browser, first: Item, queue: seq<Item>)
    requires lim.maxBatchFrames > 0
    requires forall i :: 0 <= i < |b.sent| ==> b.sent[i].Binary? && MsgFits(lim, b.sent[i])
    requires forall i :: 0 <= i < |queue| ==> queue[i].queued
    ensures var r := SendRound(lim, b, first, queue, true);
            && Outgoing(r) == Sent(b.sent) + ([first] + queue)
            && (forall i :: 0 <= i < |r.sent| ==> r.sent[i].Binary? && MsgFits(lim, r.sent[i]))
            && (forall i :: 0 <= i < |r.queue| ==> r.queue[i].queued)
  {
    hide Sent, Fill, Weight;
    var round := Fill(lim, [first], queue);
    FillKeeps(lim, [first], queue);
    SentAppend(b.sent, Binary(round.batch));
    forall i | 0 <= i < |round.rest| ensures round.rest[i].queued {
      assert round.rest[i] == (round.batch + Maybe(round.carried) + round.rest)[1 + |queue| - |round.rest| + i];
    }
  }

  lemma RoundFields(lim: Limits, b: Browser, first: Item, queue: seq<Item>, ok: bool)
    ensures var r := SendRound(lim, b, first, queue, ok);
            r.pushed == b.pushed && r.credits == b.credits && r.running == (b.running && ok)
                && (!ok ==> r.sent == b.sent)
  {
    hide Fill;
  }

  /** What was sent is a prefix of all that goes out, and so is each of its two parts. */
  lemma SentIsPrefix(b: Browser)
    ensures Picked(Sent(b.sent), true) <= Picked(Outgoing(b), true)
    ensures Picked(Sent(b.sent), false) <= Picked(Outgoing(b), false)
  {
    hide Picked, Sent;
    var rest := Maybe(b.carried) + b.queue;
    assert Outgoing(b) == Sent(b.sent) + rest;
    PickedSplits(Sent(b.sent), rest, true);
    PickedSplits(Sent(b.sent), rest, false);
  }

  /** A round that starts a run of items: it keeps the invariant whether its send succeeds or not. */
  lemma RoundInv(lim: Limits, b: Browser, first: Item, queue: seq<Item>, ok: bool)
    requires lim.maxBatchFrames > 0 && b.running
    requires forall i :: 0 <= i < |b.sent| ==> b.sent[i].Binary? && MsgFits(lim, b.sent[i])
    requires forall i :: 0 <= i < |queue| ==> queue[i].queued
    requires Picked(Sent(b.sent) + ([first] + queue), true) == b.pushed
    requires Picked(Sent(b.sent) + ([first] + queue), false) == b.credits
    ensures BrowserInv(lim, SendRound(lim, b, first, queue, ok))
  {
    hide Sent, Picked, SendRound, MsgFits;
    RoundFields(lim, b, first, queue, ok);
    if ok {
      SendRoundKeeps(lim, b, first, queue);
      SentIsPrefix(SendRound(lim, b, first, queue, true));
      hide Outgoing;
    } else {
      PickedSplits(Sent(b.sent), [first] + queue, true);
      PickedSplits(Sent(b.sent), [first] + queue, false);
      hide Outgoing;
    }
  }

  lemma BrowserTurnKeeps(lim: Limits, b: Browser, ev: BrowserEvent)
    requires lim.maxBatchFrames > 0 && BrowserInv(lim, b)
    ensures BrowserInv(lim, BrowserTurn(lim, b, ev))
  {
    hide Sent, Fill, Weight, MsgFits, SendRound, Picked;
    if ev.Push? {
      var item := Item(ev.frame, true);
      assert Outgoing(BrowserTurn(lim, b, ev)) == Outgoing(b) + [item];
      PickedAppend(Outgoing(b), item, true);
      PickedAppend(Outgoing(b), item, false);
    } else if b.running {
      hide BrowserInv;
      SendKeeps(lim, b, ev.credit, ev.ok);
    }
  }

  lemma OutgoingParts(b: Browser)
    ensures b.carried.Some? ==> Outgoing(b) == Sent(b.sent) + ([b.carried.value] + b.queue)
    ensures b.carried.None? ==> Outgoing(b) == Sent(b.sent) + b.queue
    ensures b.carried.None? && b.queue != [] ==> Outgoing(b) == Sent(b.sent) + ([b.queue[0]] + b.queue[1..])
  {
    hide Sent;
    if b.carried.Some? {
      assert Sent(b.sent) + [b.carried.value] + b.queue == Sent(b.sent) + ([b.carried.value] + b.queue);
    } else if b.queue != [] {
      assert b.queue == [b.queue[0]] + b.queue[1..];
    }
  }

  lemma SendKeeps(lim: Limits, b: Browser, credit: Option<WireFrame>, ok: bool)
    requires lim.maxBatchFrames > 0 && BrowserInv(lim, b) && b.running
    ensures BrowserInv(lim, BrowserTurn(lim, b, Send(credit, ok)))
  {
    hide Sent, Fill, Weight, MsgFits, SendRound, Picked, Outgoing;
    OutgoingParts(b);
    if b.carried.Some? {
      RoundInv(lim, b, b.carried.value, b.queue, ok);
    } else if credit.Some? {
      CreditSlips(Sent(b.sent), Item(credit.value, false), b.queue);
      RoundInv(lim, b.(credits := b.credits + [credit.value]), Item(credit.value, false), b.queue, ok);
    } else if b.queue != [] {
      RoundInv(lim, b, b.queue[0], b.queue[1..], ok);
    }
  }

  /** A credit goes ahead of queued frames without disturbing their order. */
  lemma CreditSlips(sent: seq<Item>, item: Item, queue: seq<Item>)
    requires !item.queued && forall i :: 0 <= i < |queue| ==> queue[i].queued
    ensures Picked(sent + ([item] + queue), true) == Picked(sent + queue, true)
    ensures Picked(sent + ([item] + queue), false) == Picked(sent + queue, false) + [item.frame]
  {
    hide Picked;
    forall queued ensures Picked(sent + ([item] + queue), queued)
                          == Picked(sent, queued) + Picked([item], queued) + Picked(queue, queued)
    {
      assert sent + ([item] + queue) == sent + [item] + queue;
      PickedSplits(sent + [item], queue, queued);
      PickedSplits(sent, [item], queued);
    }
    PickedSplits(sent, queue, true);
    PickedSplits(sent, queue, false);
    NoCredits(queue);
    assert Picked([item], true) == [] && Picked([item], false) == [item.frame] by {
      assert [] + [item] == [item];
      PickedAppend([], item, true);
      PickedAppend([], item, false);
      NoCredits([]);
    }
  }

  lemma {:induction false} NoCredits(queue: seq<Item>)
    requires forall i :: 0 <= i < |queue| ==> queue[i].queued
    ensures Picked(queue, false) == [] && (queue == [] ==> Picked(queue, true) == [])
  {
    if queue != [] { NoCredits(queue[..|queue| - 1]); }
  }

  /** Over every run of the browser's writer, until a send fails: queued frames are sent in queue order and credits in
      the order they were taken, none lost or repeated; and every message keeps the limits. */
  lemma {:induction false} BrowserRun(lim: Limits, events: seq<BrowserEvent>)
    requires lim.maxBatchFrames > 0
    ensures BrowserInv(lim, BrowserTurns(lim, events))
  {
    hide BrowserTurn;
    if events != [] {
      hide BrowserInv;
      BrowserRun(lim, events[..|events| - 1]);
      BrowserTurnKeeps(lim, BrowserTurns(lim, events[..|events| - 1]), events[|events| - 1]);
    }
  }

  /** The frames that wait to be sent. */
  function Unsent(b: Browser): (n: nat) {
    |Maybe(b.carried)| + |b.queue|
  }

  /** A send that works takes at least the first frame that waits. */
  lemma SendProgress(lim: Limits, b: Browser)
    requires lim.maxBatchFrames > 0 && b.running && Unsent(b) > 0
    ensures var r := BrowserTurn(lim, b, Send(None, true));
            && r.running && Unsent(r) < Unsent(b) && |r.sent| == |b.sent| + 1
            && r.pushed == b.pushed && r.credits == b.credits
  {
    hide Fill, Weight;
    var first := if b.carried.Some? then b.carried.value else b.queue[0];
    var queue := if b.carried.Some? then b.queue else b.queue[1..];
    FillKeeps(lim, [first], queue);
    var round := Fill(lim, [first], queue);
    assert |round.batch + Maybe(round.carried) + round.rest| == |[first] + queue|;
  }

  function SendTimes(k: nat): (events: seq<BrowserEvent>) {
    seq(k, i => Send(None, true))
  }

  /** So everything queued goes out: after as many sends as frames wait, on a connection that works, every frame ever
      queued and every credit ever taken has been sent. */
  lemma {:induction false} BrowserSendsAll(lim: Limits, events: seq<BrowserEvent>) returns (k: nat)
    requires lim.maxBatchFrames > 0 && BrowserTurns(lim, events).running
    ensures k <= Unsent(BrowserTurns(lim, events))
    ensures var b, r := BrowserTurns(lim, events), BrowserTurns(lim, events + SendTimes(k));
            Picked(Sent(r.sent), true) == b.pushed && Picked(Sent(r.sent), false) == b.credits
    decreases Unsent(BrowserTurns(lim, events))
  {
    hide Picked, Sent, BrowserTurn;
    var b := BrowserTurns(lim, events);
    k := 0;
    assert events + SendTimes(0) == events;
    if Unsent(b) == 0 {
      BrowserRun(lim, events);
      NothingUnsent(lim, b);
    } else {
      SendProgress(lim, b);
      assert (events + [Send(None, true)])[..|events|] == events;
      var k1 := BrowserSendsAll(lim, events + [Send(None, true)]);
      k := k1 + 1;
      assert events + [Send(None, true)] + SendTimes(k1) == events + SendTimes(k);
    }
  }

  lemma NothingUnsent(lim: Limits, b: Browser)
    requires BrowserInv(lim, b) && b.running && Unsent(b) == 0
    ensures Picked(Sent(b.sent), true) == b.pushed && Picked(Sent(b.sent), false) == b.credits
  {
    hide Picked, Sent;
    assert Outgoing(b) == Sent(b.sent);
  }

  // ---- What the receiving side makes of it ----

  /** The frames a receiver gets out of a run of WebSocket messages. */
  function Reassembled(ps: seq<Packet>, utf8: seq<Byte> -> bool): (fs: seq<Frame>) {
    if ps == [] then []
    else Reassembled(ps[..|ps| - 1], utf8)
         + (if ps[|ps| - 1].Data? then DecodeAll(ps[|ps| - 1].bytes, utf8).frames else [])
  }

  /** The receiver accepts a message: it is not too large and all of it decodes. */
  predicate Accepted(p: Packet, maxSize: nat, utf8: seq<Byte> -> bool) {
    p.Data? ==> |p.bytes| <= maxSize && DecodeAll(p.bytes, utf8).failure.None?
  }

  lemma {:induction false} BytesAreFrames(items: seq<Item>, utf8: seq<Byte> -> bool)
    requires AllInRange(FramesOf(items), utf8)
    ensures Bytes(items) == EncodeAll(FramesOf(items), utf8)
  {
    hide EncodeFrame, InRange;
    if items != [] {
      var front, last := FramesOf(items[..|items| - 1]), items[|items| - 1].frame;
      assert FramesOf(items) == front + [last];
      assert forall i :: 0 <= i < |front| ==> front[i] == FramesOf(items)[i];
      assert last == FramesOf(items)[|items| - 1];
      BytesAreFrames(items[..|items| - 1], utf8);
      EncodeAllAppend(front, [last], utf8);
      assert EncodeAll([last], utf8) == EncodeFrame(last) + EncodeAll([], utf8);
    }
  }

  /** A message decodes to exactly the frames in it. */
  predicate Decodes(m: Msg, utf8: seq<Byte> -> bool) {
    m.Binary? ==> DecodeAll(Bytes(m.items), utf8) == Decoded(FramesOf(m.items), None)
  }

  lemma MessageDecodes(m: Msg, utf8: seq<Byte> -> bool)
    requires m.Binary? ==> AllInRange(FramesOf(m.items), utf8)
    ensures Decodes(m, utf8)
  {
    hide AllInRange, DecodeAll, Bytes, FramesOf;
    if m.Binary? {
      BytesAreFrames(m.items, utf8);
      MessageRoundTrip(FramesOf(m.items), utf8);
    }
  }

  /** Whatever the batching, a receiver gets the frames that were sent, in order, and no decoding error. */
  lemma {:induction false} WireTransparent(sink: seq<Msg>, utf8: seq<Byte> -> bool)
    requires AllInRange(FramesOf(Sent(sink)), utf8)
    ensures Reassembled(AllOnWire(sink), utf8) == FramesOf(Sent(sink))
    ensures forall i :: 0 <= i < |sink| ==> Decodes(sink[i], utf8)
  {
    hide Decodes, DecodeAll, Bytes, AllInRange, FramesOf, Sent, AllOnWire, Reassembled;
    if sink == [] {
      NothingSent(utf8);
    } else {
      var front, last := sink[..|sink| - 1], sink[|sink| - 1];
      var a, b := FramesOf(Sent(front)), if last.Binary? then FramesOf(last.items) else [];
      LastMessage(front, last, utf8);
      assert sink == front + [last];
      InRangeSplits(a, b, utf8);
      WireTransparent(front, utf8);
      MessageDecodes(last, utf8);
      if last.Binary? { DecodedLast(last, utf8); }
    }
  }

  lemma NothingSent(utf8: seq<Byte> -> bool)
    ensures Reassembled(AllOnWire([]), utf8) == [] && FramesOf(Sent([])) == []
  {
  }

  lemma DecodedLast(m: Msg, utf8: seq<Byte> -> bool)
    requires m.Binary? && Decodes(m, utf8)
    ensures DecodeAll(Bytes(m.items), utf8).frames == FramesOf(m.items)
  {
    hide DecodeAll, Bytes, FramesOf;
  }

  lemma LastMessage(front: seq<Msg>, last: Msg, utf8: seq<Byte> -> bool)
    ensures FramesOf(Sent(front + [last]))
            == FramesOf(Sent(front)) + (if last.Binary? then FramesOf(last.items) else [])
    ensures Reassembled(AllOnWire(front + [last]), utf8)
            == Reassembled(AllOnWire(front), utf8)
               + (if last.Binary? then DecodeAll(Bytes(last.items), utf8).frames else [])
  {
    hide DecodeAll, Bytes, Sent, AllOnWire, Reassembled, FramesOf;
    SentAppend(front, last);
    if last.Binary? {
      FramesJoin(Sent(front), last.items);
    } else {
      assert Sent(front) + [] == Sent(front) && FramesOf(Sent(front)) + [] == FramesOf(Sent(front));
    }
    OneMorePacket(front, last);
    ReassembledAppend(AllOnWire(front), OnWire(last), utf8);
  }

  lemma FramesJoin(x: seq<Item>, y: seq<Item>)
    ensures FramesOf(x + y) == FramesOf(x) + FramesOf(y)
  {
  }

  lemma ReassembledAppend(ps: seq<Packet>, p: Packet, utf8: seq<Byte> -> bool)
    ensures Reassembled(ps + [p], utf8)
            == Reassembled(ps, utf8) + (if p.Data? then DecodeAll(p.bytes, utf8).frames else [])
  {
    hide DecodeAll;
    assert (ps + [p])[..|ps|] == ps;
  }

  lemma InRangeSplits(a: seq<Frame>, b: seq<Frame>, utf8: seq<Byte> -> bool)
    requires AllInRange(a + b, utf8)
    ensures AllInRange(a, utf8) && AllInRange(b, utf8)
  {
    hide InRange;
    assert forall i :: 0 <= i < |a| ==> a[i] == (a + b)[i];
    assert forall i :: 0 <= i < |b| ==> b[i] == (a + b)[|a| + i];
  }

  /** The length of the longest closing frame that a session writes. */
  function LongestClose(lim: Limits): (n: nat) {
    3 + MaxReason(lim)
  }

  /** A closing frame is as long as its reason; a receiver takes it if its message limit does. */
  predicate Fitting(size: nat, f: Frame) {
    f.ConnectionClose? ==> 3 + |f.reason| <= size
  }

  predicate FittingMsg(size: nat, m: Msg) {
    m.Binary? ==> forall k :: 0 <= k < |m.items| ==> Fitting(size, m.items[k].frame)
  }

  lemma CloseLength(lim: Limits, f: Frame)
    requires f.ConnectionClose? && f.code <= 3 && |f.reason| <= MaxReason(lim)
    ensures Fits(Header(f)) && |EncodeFrame(f)| == 3 + |f.reason| <= LongestClose(lim)
  {
    hide EncodeFrame;
    EncodedLenExact(f);
  }

  /** A frame of a session fits in a batch by itself, unless it is a closing frame, and in a message of a size that
      takes batches exactly if its reason does. */
  lemma FrameFits(lim: Limits, f: Frame, size: nat)
    requires Valid(lim) && FrameOk(lim, f) && MaxBytes(lim) <= size
    ensures !f.ConnectionClose? ==> |EncodeFrame(f)| <= MaxBytes(lim)
    ensures |EncodeFrame(f)| <= size <==> Fitting(size, f)
  {
    hide EncodeFrame, Header;
    if f.ConnectionClose? {
      CloseLength(lim, f);
    } else {
      EncodedLenExact(f);
    }
  }

  lemma {:induction false} WeighsMore(items: seq<Item>, k: nat)
    requires k < |items|
    ensures |EncodeFrame(items[k].frame)| <= Weight(items)
  {
    hide EncodeFrame;
    if k < |items| - 1 { WeighsMore(items[..|items| - 1], k); }
  }

  /** A message within the batch limits is within the message limit of a receiver that takes batches exactly if its
      closing frames are. */
  lemma MessageFits(lim: Limits, m: Msg, size: nat)
    requires Valid(lim) && MsgFits(lim, m) && m.Binary? && MaxBytes(lim) <= size
    requires forall i :: 0 <= i < |m.items| ==> FrameOk(lim, m.items[i].frame)
    ensures |Bytes(m.items)| <= size <==> FittingMsg(size, m)
  {
    hide EncodeFrame, FrameOk, Bytes, Fitting;
    if |m.items| == 1 {
      FrameFits(lim, m.items[0].frame, size);
      assert m.items == [] + [m.items[0]];
      WeightAppend([], m.items[0]);
    } else {
      forall k | 0 <= k < |m.items| ensures Fitting(size, m.items[k].frame) {
        FrameFits(lim, m.items[k].frame, size);
        WeighsMore(m.items, k);
      }
    }
  }

  /** A session over a WebSocket: in every run, if the writer packs the frames sent into messages within the
      limits, a receiver whose message limit takes batches gets exactly those frames, and accepts exactly the messages
      whose closing frames are within that limit. */
  lemma SessionOverWire(server: bool, lim: Limits, schedule: seq<Action>, sink: seq<Msg>, utf8: seq<Byte> -> bool,
      size: nat)
    requires Valid(lim) && (forall i :: 0 <= i < |schedule| ==> Decodable(schedule[i])) && MaxBytes(lim) <= size
    requires FramesOf(Sent(sink)) == Run(Fresh(server, lim), schedule).sent
    requires forall i :: 0 <= i < |sink| ==> MsgFits(lim, sink[i])
    requires AsciiIsText(utf8)
    ensures Reassembled(AllOnWire(sink), utf8) == Run(Fresh(server, lim), schedule).sent
    ensures forall i :: 0 <= i < |sink| ==> (Accepted(OnWire(sink[i]), size, utf8) <==> FittingMsg(size, sink[i]))
  {
    hide Run, Valid, MsgFits, FittingMsg, FrameOk, InRange, Decodable, AsciiIsText, Accepted, Decodes, Sent;
    hide Reassembled, AllOnWire;
    RunWire(server, lim, schedule);
    var fs := FramesOf(Sent(sink));
    forall i | 0 <= i < |fs| ensures InRange(fs[i], utf8) { OkInRange(lim, fs[i], utf8); }
    WireTransparent(sink, utf8);
    forall i | 0 <= i < |sink| ensures Accepted(OnWire(sink[i]), size, utf8) <==> FittingMsg(size, sink[i]) {
      MessageAccepted(lim, sink, i, utf8, size);
    }
  }

  lemma MessageAccepted(lim: Limits, sink: seq<Msg>, i: nat, utf8: seq<Byte> -> bool, size: nat)
    requires Valid(lim) && i < |sink| && MsgFits(lim, sink[i]) && Decodes(sink[i], utf8) && MaxBytes(lim) <= size
    requires FramesOk(lim, FramesOf(Sent(sink)))
    ensures Accepted(OnWire(sink[i]), size, utf8) <==> FittingMsg(size, sink[i])
  {
    hide Valid, MsgFits, FrameOk, DecodeAll, Bytes, Sent, Fitting;
    if sink[i].Binary? {
      SentHolds(sink, i);
      MessageFits(lim, sink[i], size);
    }
  }

  /** Seven-bit text is valid UTF-8. */
  ghost predicate AsciiIsText(utf8: seq<Byte> -> bool) {
    forall s: seq<Byte> :: (forall i :: 0 <= i < |s| ==> s[i] < 128) ==> utf8(s)
  }

  lemma OkInRange(lim: Limits, f: Frame, utf8: seq<Byte> -> bool)
    requires FrameOk(lim, f) && AsciiIsText(utf8)
    ensures InRange(f, utf8)
  {
    var h := Header(f);
    assert h[1] <= MAX && (|h| > 2 ==> h[2] <= MAX) && (|h| > 3 ==> h[3] <= MAX);
  }

  lemma {:induction false} SentHolds(sink: seq<Msg>, i: nat)
    requires i < |sink| && sink[i].Binary?
    ensures forall k :: 0 <= k < |sink[i].items| ==> sink[i].items[k].frame in FramesOf(Sent(sink))
  {
    var front := sink[..|sink| - 1];
    if i == |front| {
      forall k | 0 <= k < |sink[i].items| ensures sink[i].items[k].frame in FramesOf(Sent(sink)) {
        assert Sent(sink)[|Sent(front)| + k] == sink[i].items[k];
        assert FramesOf(Sent(sink))[|Sent(front)| + k] == sink[i].items[k].frame;
      }
    } else {
      SentHolds(front, i);
      assert forall j :: 0 <= j < |FramesOf(Sent(front))| ==> FramesOf(Sent(front))[j] == FramesOf(Sent(sink))[j];
    }
  }
}
