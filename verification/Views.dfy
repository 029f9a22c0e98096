/** What a log of frames says about one stream. A view is computed by one small automaton that
    both ends of a channel run: the sender over everything it has enqueued, the receiver over
    what it has processed, so the receiver's view is the sender's, delayed by the channel. */
module Views {
  import opened VarInts
  import opened Frames
  import opened Endpoints

  datatype Ended = Live | Finished | Aborted

  /** - passed: an open at or above the stream's counter was seen, so it cannot be opened any more
      - begun: the stream's own open was seen
      - active: any frame naming the stream was seen
      - bytes, ended: the data direction
      - grant: the largest credit announced for the opposite direction
      - bad: some frame was out of place (unopened stream, wrong direction, data after the end)
      - early: a credit was announced before the open */
  datatype View = View(
    passed: bool, begun: bool, active: bool, bytes: seq<Byte>, ended: Ended,
    grant: nat, bad: bool, early: bool)

  const BLANK := View(false, false, false, [], Live, 0, false, false)

  /** May the endpoint with this role send data on the stream, and may it receive? */
  predicate CanSend(id: StreamId, server: bool) {
    DirOf(id).Uni? ==> ByServer(id) == server
  }

  predicate CanReceive(id: StreamId, server: bool) {
    CanSend(id, !server)
  }

  /** A stream's initiator may only name it after opening it. */
  predicate Ready(id: StreamId, server: bool, v: View) {
    ByServer(id) == server ==> v.begun
  }

  function ObserveOpen(id: StreamId, server: bool, v: View, j: StreamId, dir: Dir): (w: View) {
    if DirOf(j) != dir || ByServer(j) != server then
      if j == id then v.(bad := true, active := true) else v
    else if j == id then
      v.(passed := true, begun := true, active := true, bad := v.bad || v.passed)
    else if DirOf(id) == dir && ByServer(id) == server && Counter(id) <= Counter(j) then v.(passed := true)
    else v
  }

  /** One step of the automaton, for frames sent by the endpoint with role `server`. */
  function Observe(id: StreamId, server: bool, v: View, f: Frame): (w: View) {
    match f
    case OpenUni(j) => ObserveOpen(id, server, v, j, Uni)
    case OpenBi(j) => ObserveOpen(id, server, v, j, Bi)
    case Stream(j, data, fin) =>
      if j != id then v else
      v.(active := true, bytes := v.bytes + data, ended := if fin then Finished else v.ended,
         bad := v.bad || !v.ended.Live? || !Ready(id, server, v) || !CanSend(id, server))
    case ResetStream(j, _) =>
      if j != id then v else
      v.(active := true, ended := if v.ended.Live? then Aborted else v.ended,
         bad := v.bad || !Ready(id, server, v) || !CanSend(id, server))
    case StopSending(j, _) =>
      if j != id then v else
      v.(active := true, bad := v.bad || !Ready(id, server, v) || !CanReceive(id, server))
    case MaxStreamData(j, max) =>
      if j != id then v else
      v.(active := true, grant := Max(v.grant, max), bad := v.bad || !CanReceive(id, server),
         early := v.early || !Ready(id, server, v))
    case ConnectionClose(_, _) => v
  }

  function Fold(id: StreamId, server: bool, log: seq<Frame>): (v: View) {
    if log == [] then BLANK else Observe(id, server, Fold(id, server, log[..|log| - 1]), log[|log| - 1])
  }

  lemma FoldAppend(id: StreamId, server: bool, log: seq<Frame>, f: Frame)
    ensures Fold(id, server, log + [f]) == Observe(id, server, Fold(id, server, log), f)
  {
    assert (log + [f])[..|log|] == log;
  }

  /** Views only grow, and an ended data direction stays as it is. */
  predicate Before(v: View, w: View) {
    && (v.passed ==> w.passed) && (v.begun ==> w.begun) && (v.active ==> w.active)
    && v.bytes <= w.bytes && v.grant <= w.grant
    && (v.bad ==> w.bad) && (v.early ==> w.early)
    && (!v.ended.Live? && !w.bad ==> w.ended == v.ended && w.bytes == v.bytes)
  }

  lemma ObserveGrows(id: StreamId, server: bool, v: View, w: View, f: Frame)
    requires Before(v, w)
    ensures Before(v, Observe(id, server, w, f))
  {
    hide DirOf, ByServer, Counter;
  }

  lemma {:induction false} FoldGrows(id: StreamId, server: bool, log: seq<Frame>, n: nat)
    requires n <= |log|
    ensures Before(Fold(id, server, log[..n]), Fold(id, server, log))
  {
    hide Observe;
    if n == |log| {
      assert log[..n] == log;
    } else {
      var front := log[..|log| - 1];
      FoldGrows(id, server, front, n);
      assert front[..n] == log[..n];
      ObserveGrows(id, server, Fold(id, server, log[..n]), Fold(id, server, front), log[|log| - 1]);
    }
  }

  /** A stream that the log has not made ready shows no data, no end and no credit. */
  predicate Shaped(id: StreamId, server: bool, v: View) {
    && (v.begun ==> v.passed && v.active)
    && (!v.active ==> v == BLANK.(passed := v.passed))
    && (!v.bad && !Ready(id, server, v) ==> v.bytes == [] && v.ended.Live?)
    && (!v.early && !Ready(id, server, v) ==> v.grant == 0)
  }

  lemma ObserveShaped(id: StreamId, server: bool, v: View, f: Frame)
    requires Shaped(id, server, v)
    ensures Shaped(id, server, Observe(id, server, v, f))
  {
    hide CanSend, CanReceive, ByServer;
  }

  lemma {:induction false} FoldShaped(id: StreamId, server: bool, log: seq<Frame>)
    ensures Shaped(id, server, Fold(id, server, log))
  {
    hide Observe;
    if log != [] {
      FoldShaped(id, server, log[..|log| - 1]);
      ObserveShaped(id, server, Fold(id, server, log[..|log| - 1]), log[|log| - 1]);
    }
  }

  /** A view with one more credit for the stream; `ready` tells whether the stream was ready for it. */
  function Credited(id: StreamId, server: bool, v: View, max: nat, ready: bool): (w: View) {
    v.(active := true, grant := Max(v.grant, max), bad := v.bad || !CanReceive(id, server), early := v.early || !ready)
  }

  lemma CreditOpen(id: StreamId, server: bool, v: View, max: nat, ready: bool, j: StreamId, dir: Dir)
    ensures ObserveOpen(id, server, Credited(id, server, v, max, ready), j, dir)
            == Credited(id, server, ObserveOpen(id, server, v, j, dir), max, ready)
  {
    hide DirOf, ByServer, Counter, CanSend;
  }

  lemma CreditObserve(id: StreamId, server: bool, v: View, max: nat, ready: bool, f: Frame)
    requires ready ==> Ready(id, server, v)
    ensures Observe(id, server, Credited(id, server, v, max, ready), f)
            == Credited(id, server, Observe(id, server, v, f), max, ready)
  {
    hide ObserveOpen, DirOf, ByServer;
    if f.OpenUni? || f.OpenBi? {
      CreditOpen(id, server, v, max, ready, f.id, if f.OpenUni? then Uni else Bi);
    }
  }

  /** A credit frame may overtake queued frames without changing what the whole log says,
      provided the stream was ready when it was written. */
  lemma {:induction false} CreditCommutes(id: StreamId, server: bool, sent: seq<Frame>, queued: seq<Frame>,
      j: StreamId, max: nat)
    ensures var v := Fold(id, server, sent + queued);
            var w := Fold(id, server, sent + [MaxStreamData(j, max)] + queued);
            if j != id then w == v
            else w == Credited(id, server, v, max, Ready(id, server, Fold(id, server, sent)))
  {
    hide Fold, Credited;
    var c := MaxStreamData(j, max);
    if queued == [] {
      FoldAppend(id, server, sent, c);
      assert sent + queued == sent && sent + [c] + queued == sent + [c];
      assert j == id ==> Observe(id, server, Fold(id, server, sent), c)
                         == Credited(id, server, Fold(id, server, sent), max, Ready(id, server, Fold(id, server, sent)))
      by { CreditHere(id, server, Fold(id, server, sent), max); }
    } else {
      hide Observe;
      var q, f := queued[..|queued| - 1], queued[|queued| - 1];
      var v := Fold(id, server, sent + q);
      CreditCommutes(id, server, sent, q, j, max);
      FoldAppend(id, server, sent + q, f);
      FoldAppend(id, server, sent + [c] + q, f);
      assert sent + queued == sent + q + [f];
      assert sent + [c] + queued == sent + [c] + q + [f];
      FoldGrows(id, server, sent + q, |sent|);
      assert (sent + q)[..|sent|] == sent;
      CreditObserve(id, server, v, max, Ready(id, server, Fold(id, server, sent)), f);
    }
  }

  lemma CreditHere(id: StreamId, server: bool, v: View, max: nat)
    ensures Observe(id, server, v, MaxStreamData(id, max)) == Credited(id, server, v, max, Ready(id, server, v))
  {
  }

  /** Everything an endpoint has enqueued so far, in the order the peer will see it. */
  function Log(e: Endpoint): (log: seq<Frame>) {
    e.sent + e.outbound
  }

  function SentView(e: Endpoint, id: StreamId): (v: View) {
    Fold(id, e.isServer, Log(e))
  }

  /** What is left of a view after the first n frames of a peer's log were processed. */
  function SeenView(peer: Endpoint, n: nat, id: StreamId): (v: View)
    requires n <= |peer.sent|
  {
    Fold(id, peer.isServer, peer.sent[..n])
  }
}
