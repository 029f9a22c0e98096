/** Endpoints negotiate no limits, so a peer's data frames may be larger than a session takes. For which pairs of
    limits, and by which run. */
module FrameSizes {
  import opened VarInts
  import opened Frames
  import opened SessionLimits
  import opened Endpoints
  import opened Views
  import opened EndpointInvariant
  import opened EndpointTheorems
  import opened Links
  import opened TwoParty
  import opened HonestClosings
  import opened Overflow
  import opened FirstStream

  /** No frame that the peer can make, out of the credit it can have, is larger than we take. */
  predicate Takes(ours: Limits, theirs: Limits) {
    Min(MaxChunk(theirs), ours.initialStreamWindow) <= ours.maxStreamDataPerFrame
  }

  /** A data frame in transit is no larger than a write of the peer, and than our window. */
  lemma DataInTransit(s: System)
    requires Inv(s) && s.seenByA < |s.b.sent| && !s.a.closed && s.b.sent[s.seenByA].Stream?
    ensures |s.b.sent[s.seenByA].data| <= Min(MaxChunk(s.b.limits), s.a.limits.initialStreamWindow)
  {
    hide Inv, LinkOk, SeenView, StreamViolation, StreamOk, AllOk, WireOk, Half, Shaped, Placed, Observe, Before;
    hide SentView;
    var f := s.b.sent[s.seenByA];
    var j := f.id;
    ShapeOf(s);
    SideOf(s);
    NextFramePlaced(s, j);
    NextFrame(s, j);
    LinkOf(s, j);
    StreamOf(s.a, j);
    if Half(s.a, j) {
      HalfPlaced(s.a, j, f.data, f.fin, ByA(s, j), ByA(Flip(s), j));
    } else {
      DataPlaced(s.a, j, f.data, f.fin, ByA(s, j), ByA(Flip(s), j));
    }
  }

  lemma {:induction false} NeverStrained(la: Limits, lb: Limits, moves: seq<Move>, flipped: bool)
    requires Valid(la) && Valid(lb) && Takes(Ours(la, lb, flipped), Theirs(la, lb, flipped))
    ensures !Strained(la, lb, moves, flipped)
  {
    hide Valid, Inv, Facing, Play, MaxChunk;
    if moves != [] {
      var front, m := moves[..|moves| - 1], moves[|moves| - 1];
      NeverStrained(la, lb, front, flipped);
      Reached(la, lb, front, flipped);
      var t := Facing(Play(Start(la, lb), front), flipped);
      if Strains(Play(Start(la, lb), front), m, flipped) { DataInTransit(t); }
    }
  }

  // ---- A run that meets such a frame ----

  function Zeros(n: nat): (data: seq<Byte>)
    ensures |data| == n
  {
    seq(n, i => 0)
  }

  /** The first stream is opened and given credit, and its first write makes one frame too large. */
  lemma StrainingRun(la: Limits, lb: Limits, flipped: bool) returns (moves: seq<Move>)
    requires Valid(la) && Valid(lb) && !Takes(Ours(la, lb, flipped), Theirs(la, lb, flipped))
    ensures Strained(la, lb, moves, flipped)
  {
    hide Play, Valid, Facing, FirstUni, BySide, Wrote, Writing, MaxChunk, Piled;
    var ours, theirs := Ours(la, lb, flipped), Theirs(la, lb, flipped);
    var s0, j, data := Opening(flipped, ours, theirs), FirstUni(!flipped), Zeros(ours.maxStreamDataPerFrame + 1);
    var before := ANNOUNCING + CREDITING;
    var front, m := BySide(before + Writing(j, data), flipped), Deliver(!flipped, true, true);
    FirstStreamCredited(flipped, ours, theirs);
    var s := Play(s0, before);
    PlayConcat(s0, before, Writing(j, data));
    WritingPlayed(s, j, data);
    EitherSide(la, lb, before + Writing(j, data), flipped);
    LargeFrame(s, j, data);
    moves := front + [m];
    assert moves[..|moves| - 1] == front;
    assert Strains(Play(Start(la, lb), front), m, flipped);
  }

  lemma LargeFrame(s: System, j: StreamId, data: seq<Byte>)
    requires Piled(s, j, 0) && |data| == s.a.limits.maxStreamDataPerFrame + 1
    requires |data| <= MaxChunk(s.b.limits) && |data| <= s.a.limits.initialStreamWindow
    ensures var b := Wrote(s.b, j, data);
            !s.a.closed && s.seenByA < |b.sent| && b.sent[s.seenByA] == Stream(j, data, false)
  {
    hide Wrote, MaxChunk;
    DataWritten(s.b, j, data, s.a.limits.initialStreamWindow, 0);
  }

  /** For either side and every pair of limits: some run of honest endpoints brings it a data frame larger than it takes
      if and only if the largest write of its peer and its own window are both larger than that. */
  lemma StrainedIff(la: Limits, lb: Limits, flipped: bool)
    requires Valid(la) && Valid(lb)
    ensures (exists moves :: Strained(la, lb, moves, flipped))
            <==> !Takes(Ours(la, lb, flipped), Theirs(la, lb, flipped))
  {
    hide Valid, Strained, Takes;
    if Takes(Ours(la, lb, flipped), Theirs(la, lb, flipped)) {
      forall moves ensures !Strained(la, lb, moves, flipped) { NeverStrained(la, lb, moves, flipped); }
    } else {
      var moves := StrainingRun(la, lb, flipped);
    }
  }

  // ---- The default limits ----

  const DEFAULTS: Limits :=
    Limits(1024 * 1024, 256 * 1024, 1024, 128, 256, 64, 512 * 1024, 512 * 1024, 256 * 1024, 128, 128)

  /** The default limits are valid; sessions that have them write at most 16 KiB into a frame and take each other's
      frames; and a reader that does not read can end one, as its queue is shorter than its window. */
  lemma DefaultLimits()
    ensures Valid(DEFAULTS) && MaxChunk(DEFAULTS) == 0x4000 && Takes(DEFAULTS, DEFAULTS)
    ensures exists moves :: CanOverflow(DEFAULTS, DEFAULTS, moves, false)
  {
    OverflowIff(DEFAULTS, DEFAULTS, false);
  }
}
