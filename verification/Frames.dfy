/** Stream identifiers and the seven frames of the mux wire protocol. */
module Frames {
  import opened VarInts

  // ---- Stream identifiers: counter * 4 | direction * 2 | initiator ----

  datatype Dir = Bi | Uni

  type StreamId = nat

  datatype Option<+T> = None | Some(value: T)

  const U64_MAX: nat := 0xFFFF_FFFF_FFFF_FFFF

  /** Identifiers of one direction and one initiator. */
  const IDS: nat := 0x1000_0000_0000_0000

  function NewId(counter: nat, isServer: bool, dir: Dir): (r: Option<StreamId>) {
    if counter * 4 > U64_MAX then None
    else
      var value := counter * 4 + (if dir.Uni? then 2 else 0) + (if isServer then 1 else 0);
      if value > MAX then None else Some(value)
  }

  function DirOf(id: StreamId): (d: Dir) {
    if id / 2 % 2 == 1 then Uni else Bi
  }

  predicate ByServer(id: StreamId) {
    id % 2 == 1
  }

  function Counter(id: StreamId): (c: nat) {
    id / 4
  }

  /** The three fields and the identifier determine each other, and allocation
      fails exactly on counters of 2^60 and above. */
  lemma IdBijection(counter: nat, isServer: bool, dir: Dir, id: StreamId)
    requires id <= MAX
    ensures NewId(counter, isServer, dir) == Some(id)
            <==> Counter(id) == counter && ByServer(id) == isServer && DirOf(id) == dir
    ensures NewId(counter, isServer, dir).None? <==> counter >= IDS
  {
    assert id == 4 * (id / 4) + 2 * (id / 2 % 2) + id % 2;
  }

  // ---- Frames ----

  datatype Frame =
    | OpenUni(id: StreamId)
    | OpenBi(id: StreamId)
    | Stream(id: StreamId, data: seq<Byte>, fin: bool)
    | ResetStream(id: StreamId, code: nat)
    | StopSending(id: StreamId, code: nat)
    | ConnectionClose(code: nat, reason: seq<Byte>)
    | MaxStreamData(id: StreamId, max: nat)

  datatype FrameError = Truncated | UnknownTag(tag: nat) | InvalidUtf8 | InvalidFin(value: nat)

  /** Every field fits its varint. The close reason is Rust text, so it is valid UTF-8;
      validity itself is a parameter of this model. */
  predicate InRange(f: Frame, utf8: seq<Byte> -> bool) {
    match f
    case OpenUni(id) => id <= MAX
    case OpenBi(id) => id <= MAX
    case Stream(id, data, _) => id <= MAX && |data| <= MAX
    case ResetStream(id, code) => id <= MAX && code <= MAX
    case StopSending(id, code) => id <= MAX && code <= MAX
    case ConnectionClose(code, reason) => code <= MAX && |reason| <= MAX && utf8(reason)
    case MaxStreamData(id, max) => id <= MAX && max <= MAX
  }

  /** The varint fields a frame starts with, in wire order. */
  function Header(f: Frame): (h: seq<nat>) {
    match f
    case OpenUni(id) => [0, id]
    case OpenBi(id) => [1, id]
    case Stream(id, data, fin) => [2, id, if fin then 1 else 0, |data|]
    case ResetStream(id, code) => [3, id, code]
    case StopSending(id, code) => [4, id, code]
    case ConnectionClose(code, reason) => [5, code, |reason|]
    case MaxStreamData(id, max) => [6, id, max]
  }

  function Payload(f: Frame): (p: seq<Byte>) {
    match f
    case Stream(_, data, _) => data
    case ConnectionClose(_, reason) => reason
    case _ => []
  }

  predicate Fits(h: seq<nat>) {
    forall i :: 0 <= i < |h| ==> h[i] <= MAX
  }

  function EncodeInts(h: seq<nat>): (s: seq<Byte>)
    requires Fits(h)
  {
    if h == [] then [] else Encode(h[0]) + EncodeInts(h[1..])
  }

  function EncodeFrame(f: Frame): (s: seq<Byte>)
    requires Fits(Header(f))
    ensures s != []
  {
    EncodeInts(Header(f)) + Payload(f)
  }

  function DecodeInts(s: seq<Byte>, n: nat): (r: Parse<seq<nat>, UnexpectedEnd>)
    ensures r.Parsed? ==> |r.value| == n && |r.rest| <= |s|
  {
    if n == 0 then Parsed([], s)
    else
      match Decode(s)
      case Failed(e) => Failed(e)
      case Parsed(x, s') =>
        match DecodeInts(s', n - 1)
        case Failed(e) => Failed(e)
        case Parsed(xs, rest) => Parsed([x] + xs, rest)
  }

  /** A length-prefixed tail: `len` bytes, all of which must be present. */
  function Take(s: seq<Byte>, len: nat): (r: Parse<seq<Byte>, UnexpectedEnd>) {
    if |s| < len then Failed(UnexpectedEnd) else Parsed(s[..len], s[len..])
  }

  /** Decoding: the tag, its fixed fields, then the length-prefixed tail of tags 2 and 5. */
  function DecodeFrame(s: seq<Byte>, utf8: seq<Byte> -> bool): (r: Parse<Frame, FrameError>)
    ensures r.Parsed? ==> |r.rest| < |s|
  {
    match Decode(s)
    case Failed(_) => Failed(Truncated)
    case Parsed(tag, s1) =>
      if tag > 6 then Failed(UnknownTag(tag)) else
      match DecodeInts(s1, if tag <= 1 then 1 else 2)
      case Failed(_) => Failed(Truncated)
      case Parsed(h, s2) => DecodeBody(tag, h, s2, utf8)
  }

  function DecodeBody(tag: nat, h: seq<nat>, s: seq<Byte>, utf8: seq<Byte> -> bool): (r: Parse<Frame, FrameError>)
    requires tag <= 6 && |h| == (if tag <= 1 then 1 else 2)
    ensures r.Parsed? ==> |r.rest| <= |s|
  {
    match tag
    case 0 => Parsed(OpenUni(h[0]), s)
    case 1 => Parsed(OpenBi(h[0]), s)
    case 2 =>
      if h[1] > 1 then Failed(InvalidFin(h[1])) else
      (match Decode(s)
       case Failed(_) => Failed(Truncated)
       case Parsed(len, s') =>
         match Take(s', len)
         case Failed(_) => Failed(Truncated)
         case Parsed(data, rest) => Parsed(Stream(h[0], data, h[1] == 1), rest))
    case 3 => Parsed(ResetStream(h[0], h[1]), s)
    case 4 => Parsed(StopSending(h[0], h[1]), s)
    case 5 =>
      (match Take(s, h[1])
       case Failed(_) => Failed(Truncated)
       case Parsed(reason, rest) =>
         if utf8(reason) then Parsed(ConnectionClose(h[0], reason), rest) else Failed(InvalidUtf8))
    case _ => Parsed(MaxStreamData(h[0], h[1]), s)
  }

  lemma {:induction false} IntsRoundTrip(h: seq<nat>, tail: seq<Byte>)
    requires Fits(h)
    ensures DecodeInts(EncodeInts(h) + tail, |h|) == Parsed(h, tail)
  {
    hide Decode, Encode;
    if h == [] {
      assert EncodeInts(h) + tail == tail;
    } else {
      assert EncodeInts(h) + tail == Encode(h[0]) + (EncodeInts(h[1..]) + tail);
      RoundTrip(h[0], EncodeInts(h[1..]) + tail);
      IntsRoundTrip(h[1..], tail);
      assert h == [h[0]] + h[1..];
    }
  }

  /** Cut anywhere, a run of varints is either incomplete or whole and followed by a cut tail. */
  lemma {:induction false} IntsCut(h: seq<nat>, tail: seq<Byte>, k: nat)
    requires Fits(h) && k <= |EncodeInts(h)| + |tail|
    ensures DecodeInts((EncodeInts(h) + tail)[..k], |h|) ==
            if k < |EncodeInts(h)| then Failed(UnexpectedEnd) else Parsed(h, tail[..k - |EncodeInts(h)|])
  {
    hide Decode, Encode;
    var s := (EncodeInts(h) + tail)[..k];
    if k >= |EncodeInts(h)| {
      assert s == EncodeInts(h) + tail[..k - |EncodeInts(h)|];
      IntsRoundTrip(h, tail[..k - |EncodeInts(h)|]);
    } else {
      var e, r := Encode(h[0]), EncodeInts(h[1..]) + tail;
      assert EncodeInts(h) + tail == e + r;
      if k < |e| {
        assert s == e[..k];
        ProperPrefixFails(h[0], k);
      } else {
        assert s == e + r[..k - |e|];
        RoundTrip(h[0], r[..k - |e|]);
        IntsCut(h[1..], tail, k - |e|);
      }
    }
  }

  /** An encoding is its tag, its fixed fields and what `DecodeBody` reads. */
  lemma EncodeParts(f: Frame) returns (fixed: seq<nat>, tail: seq<Byte>)
    requires Fits(Header(f)) && |Payload(f)| <= MAX
    ensures fixed == Header(f)[1..if |Header(f)| == 2 then 2 else 3] && Fits(fixed)
    ensures tail == (if f.Stream? then Encode(|f.data|) + f.data else Payload(f))
    ensures EncodeFrame(f) == Encode(Header(f)[0]) + (EncodeInts(fixed) + tail)
  {
    hide Encode;
    var h := Header(f);
    fixed := h[1..if |h| == 2 then 2 else 3];
    tail := if f.Stream? then Encode(|f.data|) + f.data else Payload(f);
    if f.Stream? {
      IntsAppend(fixed, [|f.data|]);
      assert h[1..] == fixed + [|f.data|];
    } else {
      assert h[1..] == fixed;
    }
  }

  lemma {:induction false} IntsAppend(a: seq<nat>, b: seq<nat>)
    requires Fits(a) && Fits(b)
    ensures Fits(a + b) && EncodeInts(a + b) == EncodeInts(a) + EncodeInts(b)
  {
    hide Encode;
    if a == [] { assert a + b == b; } else { IntsAppend(a[1..], b); assert (a + b)[1..] == a[1..] + b; }
  }

  lemma PayloadFits(f: Frame)
    requires Fits(Header(f))
    ensures |Payload(f)| <= MAX
  {
    var h := Header(f);
    assert h[|h| - 1] <= MAX;
  }

  /** Decoding undoes encoding and leaves exactly the bytes of the frames that follow. */
  lemma FrameRoundTrip(f: Frame, suffix: seq<Byte>, utf8: seq<Byte> -> bool)
    requires InRange(f, utf8)
    ensures DecodeFrame(EncodeFrame(f) + suffix, utf8) == Parsed(f, suffix)
  {
    hide Decode, Encode, EncodeInts, DecodeInts, EncodeFrame, DecodeBody, Payload;
    var h := Header(f);
    PayloadFits(f);
    var fixed, tail := EncodeParts(f);
    var s1 := EncodeInts(fixed) + (tail + suffix);
    assert EncodeFrame(f) + suffix == Encode(h[0]) + s1;
    RoundTrip(h[0], s1);
    IntsRoundTrip(fixed, tail + suffix);
    BodyRoundTrip(f, fixed, tail, suffix, utf8);
  }

  lemma BodyRoundTrip(f: Frame, fixed: seq<nat>, tail: seq<Byte>, suffix: seq<Byte>, utf8: seq<Byte> -> bool)
    requires InRange(f, utf8) && fixed == Header(f)[1..if |Header(f)| == 2 then 2 else 3]
    requires tail == (if f.Stream? then Encode(|f.data|) + f.data else Payload(f))
    ensures DecodeBody(Header(f)[0], fixed, tail + suffix, utf8) == Parsed(f, suffix)
  {
    hide Decode, Encode;
    var p := Payload(f);
    if f.Stream? {
      assert tail + suffix == Encode(|p|) + (p + suffix);
      RoundTrip(|p|, p + suffix);
    }
    assert (p + suffix)[..|p|] == p && (p + suffix)[|p|..] == suffix;
  }

  /** Encodings are prefix-free: cut anywhere, a frame is reported as truncated. */
  lemma FrameProperPrefixFails(f: Frame, k: nat, utf8: seq<Byte> -> bool)
    requires InRange(f, utf8) && k < |EncodeFrame(f)|
    ensures DecodeFrame(EncodeFrame(f)[..k], utf8) == Failed(Truncated)
  {
    hide Decode, Encode, EncodeInts, DecodeInts, EncodeFrame, DecodeBody;
    var h := Header(f);
    var fixed, tail := EncodeParts(f);
    var e, s1 := Encode(h[0]), EncodeInts(fixed) + tail;
    if k < |e| {
      assert EncodeFrame(f)[..k] == e[..k];
      ProperPrefixFails(h[0], k);
      return;
    }
    assert EncodeFrame(f)[..k] == e + s1[..k - |e|];
    RoundTrip(h[0], s1[..k - |e|]);
    IntsCut(fixed, tail, k - |e|);
    var j := k - |e| - |EncodeInts(fixed)|;
    if 0 <= j { BodyCut(f, fixed, tail, j, utf8); }
  }

  lemma BodyCut(f: Frame, fixed: seq<nat>, tail: seq<Byte>, j: nat, utf8: seq<Byte> -> bool)
    requires InRange(f, utf8) && fixed == Header(f)[1..if |Header(f)| == 2 then 2 else 3] && j < |tail|
    requires tail == (if f.Stream? then Encode(|f.data|) + f.data else Payload(f))
    ensures DecodeBody(Header(f)[0], fixed, tail[..j], utf8) == Failed(Truncated)
  {
    hide Decode, Encode;
    if f.Stream? {
      if j < Size(|f.data|) {
        assert tail[..j] == Encode(|f.data|)[..j];
        ProperPrefixFails(|f.data|, j);
      } else {
        assert tail[..j] == Encode(|f.data|) + f.data[..j - Size(|f.data|)];
        RoundTrip(|f.data|, f.data[..j - Size(|f.data|)]);
      }
    }
  }

  /** On arbitrary bytes, whatever is decoded can be encoded again. */
  lemma DecodedFrameInRange(s: seq<Byte>, utf8: seq<Byte> -> bool)
    requires DecodeFrame(s, utf8).Parsed?
    ensures InRange(DecodeFrame(s, utf8).value, utf8)
  {
    hide Decode, DecodeInts;
    var Parsed(tag, s1) := Decode(s);
    DecodedIntsFit(s1, if tag <= 1 then 1 else 2);
    var s2 := DecodeInts(s1, if tag <= 1 then 1 else 2).rest;
    if tag == 2 { DecodedInRange(s2); }
  }

  lemma {:induction false} DecodedIntsFit(s: seq<Byte>, n: nat)
    requires DecodeInts(s, n).Parsed?
    ensures Fits(DecodeInts(s, n).value)
  {
    hide Decode;
    if n > 0 {
      DecodedInRange(s);
      DecodedIntsFit(Decode(s).rest, n - 1);
    }
  }

  // ---- The frame table of the protocol ----

  lemma IntsOne(a: nat)
    requires a <= MAX
    ensures EncodeInts([a]) == Encode(a)
  {
    hide Encode;
    assert [a][1..] == [];
    assert Encode(a) + EncodeInts([]) == Encode(a);
  }

  lemma IntsMore(h: seq<nat>)
    requires Fits(h) && h != []
    ensures EncodeInts(h) == Encode(h[0]) + EncodeInts(h[1..])
  {
    hide Encode;
  }

  /** Row by row: the tag as one byte, then the fields in the order of the table. */
  lemma WireTable(f: Frame)
    requires Fits(Header(f))
    ensures f.OpenUni? ==> f.id <= MAX && EncodeFrame(f) == [0] + Encode(f.id)
    ensures f.OpenBi? ==> f.id <= MAX && EncodeFrame(f) == [1] + Encode(f.id)
    ensures f.Stream? ==> && f.id <= MAX && |f.data| <= MAX
                          && EncodeFrame(f) == [2] + Encode(f.id) + [if f.fin then 1 else 0] + Encode(|f.data|) + f.data
    ensures f.ResetStream? ==> f.id <= MAX && f.code <= MAX && EncodeFrame(f) == [3] + Encode(f.id) + Encode(f.code)
    ensures f.StopSending? ==> f.id <= MAX && f.code <= MAX && EncodeFrame(f) == [4] + Encode(f.id) + Encode(f.code)
    ensures f.ConnectionClose? ==>
              && f.code <= MAX && |f.reason| <= MAX
              && EncodeFrame(f) == [5] + Encode(f.code) + Encode(|f.reason|) + f.reason
    ensures f.MaxStreamData? ==> f.id <= MAX && f.max <= MAX && EncodeFrame(f) == [6] + Encode(f.id) + Encode(f.max)
  {
    hide Encode, EncodeInts;
    var h := Header(f);
    assert h[0] <= MAX && h[1] <= MAX && (|h| > 2 ==> h[2] <= MAX) && (|h| > 3 ==> h[3] <= MAX);
    WireForm(h[0]);
    IntsMore(h);
    IntsMore(h[1..]);
    if |h| == 2 {
      IntsOne(h[1]);
      assert h[1..] == [h[1]];
    } else if |h| == 3 {
      assert h[1..][1..] == [h[2]];
      IntsOne(h[2]);
    } else {
      WireForm(h[2]);
      IntsMore(h[1..][1..]);
      assert h[1..][1..][1..] == [h[3]];
      IntsOne(h[3]);
    }
  }

  /** The bytes s start with this frame, by the table: its tag and fields as varints of any length, the bytes that its
      length announces, and text for a reason. */
  predicate StartsWith(s: seq<Byte>, f: Frame, rest: seq<Byte>, utf8: seq<Byte> -> bool) {
    match f
    case OpenUni(id) => DecodeInts(s, 2) == Parsed([0, id], rest)
    case OpenBi(id) => DecodeInts(s, 2) == Parsed([1, id], rest)
    case Stream(id, data, fin) => DecodeInts(s, 4) == Parsed([2, id, if fin then 1 else 0, |data|], data + rest)
    case ResetStream(id, code) => DecodeInts(s, 3) == Parsed([3, id, code], rest)
    case StopSending(id, code) => DecodeInts(s, 3) == Parsed([4, id, code], rest)
    case ConnectionClose(code, reason) => DecodeInts(s, 3) == Parsed([5, code, |reason|], reason + rest) && utf8(reason)
    case MaxStreamData(id, max) => DecodeInts(s, 3) == Parsed([6, id, max], rest)
  }

  /** One varint more, at either end. */
  lemma IntsStep(s: seq<Byte>, n: nat)
    requires n > 0
    ensures DecodeInts(s, n) ==
            match Decode(s) {
              case Failed(e) => Failed(e)
              case Parsed(x, s') =>
                match DecodeInts(s', n - 1) {
                  case Failed(e) => Failed(e)
                  case Parsed(xs, rest) => Parsed([x] + xs, rest)
                }
            }
  {
    hide Decode;
  }

  lemma {:induction false} IntsLast(s: seq<Byte>, n: nat)
    ensures DecodeInts(s, n + 1) ==
            match DecodeInts(s, n) {
              case Failed(e) => Failed(e)
              case Parsed(xs, s') =>
                match Decode(s') {
                  case Failed(e) => Failed(e)
                  case Parsed(x, rest) => Parsed(xs + [x], rest)
                }
            }
    decreases n
  {
    hide Decode, DecodeInts;
    IntsStep(s, n + 1);
    if n == 0 {
      NoInts(s);
      if Decode(s).Parsed? {
        NoInts(Decode(s).rest);
        assert [Decode(s).value] + [] == [] + [Decode(s).value];
      }
    } else {
      IntsStep(s, n);
      if Decode(s).Parsed? {
        var x, s' := Decode(s).value, Decode(s).rest;
        IntsLast(s', n - 1);
        if DecodeInts(s', n).Parsed? {
          var xs := DecodeInts(s', n - 1);
          assert [x] + (xs.value + [Decode(xs.rest).value]) == [x] + xs.value + [Decode(xs.rest).value];
        }
      }
    }
  }

  lemma NoInts(s: seq<Byte>)
    ensures DecodeInts(s, 0) == Parsed([], s)
  {
  }

  lemma FirstInt(s: seq<Byte>, x: nat, h: seq<nat>, rest: seq<Byte>)
    ensures DecodeInts(s, |h| + 1) == Parsed([x] + h, rest) <==>
            Decode(s).Parsed? && Decode(s).value == x && DecodeInts(Decode(s).rest, |h|) == Parsed(h, rest)
  {
    hide Decode, DecodeInts;
    IntsStep(s, |h| + 1);
    if Decode(s).Parsed? {
      var r := DecodeInts(Decode(s).rest, |h|);
      if r.Parsed? {
        var all := [Decode(s).value] + r.value;
        assert all[0] == Decode(s).value && all[1..] == r.value && ([x] + h)[0] == x && ([x] + h)[1..] == h;
      }
    }
  }

  lemma LastInt(s: seq<Byte>, h: seq<nat>, x: nat, rest: seq<Byte>)
    ensures DecodeInts(s, |h| + 1) == Parsed(h + [x], rest) <==>
            DecodeInts(s, |h|).Parsed? && DecodeInts(s, |h|).value == h
            && Decode(DecodeInts(s, |h|).rest) == Parsed(x, rest)
  {
    hide Decode, DecodeInts;
    IntsLast(s, |h|);
    if DecodeInts(s, |h|).Parsed? {
      var r := DecodeInts(s, |h|);
      if Decode(r.rest).Parsed? {
        var all := r.value + [Decode(r.rest).value];
        assert all[..|h|] == r.value && all[|h|] == Decode(r.rest).value;
        assert (h + [x])[..|h|] == h && (h + [x])[|h|] == x;
      }
    }
  }

  /** On any bytes, exactly the frames of the table are decoded. */
  lemma DecodeTable(s: seq<Byte>, f: Frame, rest: seq<Byte>, utf8: seq<Byte> -> bool)
    ensures DecodeFrame(s, utf8) == Parsed(f, rest) <==> StartsWith(s, f, rest, utf8)
  {
    hide Decode, DecodeInts, DecodeBody, StartsWith;
    TableStarts(s, f, rest, utf8);
    if Decode(s).Parsed? {
      var tag, s1 := Decode(s).value, Decode(s).rest;
      if tag <= 6 {
        var r := DecodeInts(s1, if tag <= 1 then 1 else 2);
        if r.Parsed? { BodyTable(tag, r.value, r.rest, f, rest, utf8); }
      }
    }
  }

  /** What `StartsWith` asks of the tag and of the varints behind it. */
  lemma TableStarts(s: seq<Byte>, f: Frame, rest: seq<Byte>, utf8: seq<Byte> -> bool)
    ensures StartsWith(s, f, rest, utf8) <==>
            && Decode(s).Parsed?
            && var tag, s1 := Decode(s).value, Decode(s).rest;
               match f {
                 case OpenUni(id) => tag == 0 && DecodeInts(s1, 1) == Parsed([id], rest)
                 case OpenBi(id) => tag == 1 && DecodeInts(s1, 1) == Parsed([id], rest)
                 case Stream(id, data, fin) =>
                   && tag == 2 && DecodeInts(s1, 2).Parsed? && DecodeInts(s1, 2).value == [id, if fin then 1 else 0]
                   && Decode(DecodeInts(s1, 2).rest) == Parsed(|data|, data + rest)
                 case ResetStream(id, code) => tag == 3 && DecodeInts(s1, 2) == Parsed([id, code], rest)
                 case StopSending(id, code) => tag == 4 && DecodeInts(s1, 2) == Parsed([id, code], rest)
                 case ConnectionClose(code, reason) =>
                   tag == 5 && DecodeInts(s1, 2) == Parsed([code, |reason|], reason + rest) && utf8(reason)
                 case MaxStreamData(id, max) => tag == 6 && DecodeInts(s1, 2) == Parsed([id, max], rest)
               }
  {
    hide Decode, DecodeInts;
    match f
    case OpenUni(id) => FirstInt(s, 0, [id], rest); assert [0] + [id] == [0, id];
    case OpenBi(id) => FirstInt(s, 1, [id], rest); assert [1] + [id] == [1, id];
    case Stream(id, data, fin) =>
      var flag := if fin then 1 else 0;
      FirstInt(s, 2, [id, flag, |data|], data + rest);
      assert [2] + [id, flag, |data|] == [2, id, flag, |data|] && [id, flag] + [|data|] == [id, flag, |data|];
      if Decode(s).Parsed? { LastInt(Decode(s).rest, [id, flag], |data|, data + rest); }
    case ResetStream(id, code) => FirstInt(s, 3, [id, code], rest); assert [3] + [id, code] == [3, id, code];
    case StopSending(id, code) => FirstInt(s, 4, [id, code], rest); assert [4] + [id, code] == [4, id, code];
    case ConnectionClose(code, reason) =>
      FirstInt(s, 5, [code, |reason|], reason + rest);
      assert [5] + [code, |reason|] == [5, code, |reason|];
    case MaxStreamData(id, max) => FirstInt(s, 6, [id, max], rest); assert [6] + [id, max] == [6, id, max];
  }

  lemma BodyTable(tag: nat, h: seq<nat>, s: seq<Byte>, f: Frame, rest: seq<Byte>, utf8: seq<Byte> -> bool)
    requires tag <= 6 && |h| == (if tag <= 1 then 1 else 2)
    ensures DecodeBody(tag, h, s, utf8) == Parsed(f, rest) <==>
            match f {
              case OpenUni(id) => tag == 0 && h == [id] && s == rest
              case OpenBi(id) => tag == 1 && h == [id] && s == rest
              case Stream(id, data, fin) =>
                tag == 2 && h == [id, if fin then 1 else 0] && Decode(s) == Parsed(|data|, data + rest)
              case ResetStream(id, code) => tag == 3 && h == [id, code] && s == rest
              case StopSending(id, code) => tag == 4 && h == [id, code] && s == rest
              case ConnectionClose(code, reason) =>
                tag == 5 && h == [code, |reason|] && s == reason + rest && utf8(reason)
              case MaxStreamData(id, max) => tag == 6 && h == [id, max] && s == rest
            }
  {
    hide Decode;
    if f.Stream? && tag == 2 && Decode(s).Parsed? {
      Cut(Decode(s).rest, f.data, rest, Decode(s).value);
    }
    if f.ConnectionClose? && tag == 5 { Cut(s, f.reason, rest, h[1]); }
  }

  lemma Cut(s: seq<Byte>, data: seq<Byte>, rest: seq<Byte>, len: nat)
    ensures Take(s, len) == Parsed(data, rest) <==> |data| == len && s == data + rest
  {
    if |s| >= len { assert s == s[..len] + s[len..]; }
    if s == data + rest && |data| == len { assert s[..len] == data && s[len..] == rest; }
  }

  /** And why bytes are refused: for a tag that is not in the table, a fin flag other than 0 and 1, a reason that is no
      text, and otherwise for want of bytes. */
  lemma DecodeErrors(s: seq<Byte>, utf8: seq<Byte> -> bool)
    ensures forall t :: DecodeFrame(s, utf8) == Failed(UnknownTag(t)) <==> Decode(s).Parsed? && Decode(s).value == t > 6
    ensures forall v :: DecodeFrame(s, utf8) == Failed(InvalidFin(v)) <==>
                          DecodeInts(s, 3).Parsed? && DecodeInts(s, 3).value[0] == 2
                              && DecodeInts(s, 3).value[2] == v > 1
    ensures DecodeFrame(s, utf8) == Failed(InvalidUtf8) <==>
            && DecodeInts(s, 3).Parsed? && DecodeInts(s, 3).value[0] == 5
            && DecodeInts(s, 3).value[2] <= |DecodeInts(s, 3).rest|
            && !utf8(DecodeInts(s, 3).rest[..DecodeInts(s, 3).value[2]])
  {
    hide Decode, DecodeInts;
    IntsStep(s, 3);
  }

  /** The exact length of an encoding. */
  function EncodedLen(f: Frame): (n: nat)
    requires Fits(Header(f))
  {
    var h := Header(f);
    assert h[1] <= MAX && (|h| > 2 ==> h[2] <= MAX) && (|h| > 3 ==> h[3] <= MAX);
    match f
    case OpenUni(id) => 1 + Size(id)
    case OpenBi(id) => 1 + Size(id)
    case Stream(id, data, fin) => 1 + Size(id) + Size(if fin then 1 else 0) + Size(|data|) + |data|
    case ResetStream(id, code) => 1 + Size(id) + Size(code)
    case StopSending(id, code) => 1 + Size(id) + Size(code)
    case ConnectionClose(code, reason) => 1 + Size(code) + Size(|reason|) + |reason|
    case MaxStreamData(id, max) => 1 + Size(id) + Size(max)
  }

  lemma EncodedLenExact(f: Frame)
    requires Fits(Header(f))
    ensures |EncodeFrame(f)| == EncodedLen(f)
  {
    hide Encode;
    var h := Header(f);
    assert h[1..][1..] == h[2..];
    assert |EncodeInts(h)| == Size(h[0]) + Size(h[1]) + |EncodeInts(h[2..])|;
    if |h| > 2 { assert h[2..][1..] == h[3..] && |EncodeInts(h[2..])| == Size(h[2]) + |EncodeInts(h[3..])|; }
    if |h| > 3 { assert h[3..][1..] == h[4..] && |EncodeInts(h[3..])| == Size(h[3]) + |EncodeInts(h[4..])|; }
  }

  method WriteInts(h: seq<nat>) returns (buf: seq<Byte>)
    requires Fits(h)
    ensures buf == EncodeInts(h)
  {
    hide Encode;
    buf := [];
    for i := 0 to |h|
      invariant buf + EncodeInts(h[i..]) == EncodeInts(h)
    {
      assert h[i..][1..] == h[i + 1..];
      buf := buf + Encode(h[i]);
    }
  }

  /** Encoding by appending to a buffer. */
  method WriteFrame(f: Frame) returns (buf: seq<Byte>)
    requires Fits(Header(f))
    ensures buf == EncodeFrame(f)
    ensures |buf| == EncodedLen(f)
  {
    hide Header, EncodedLen, Payload, EncodeInts;
    EncodedLenExact(f);
    buf := WriteInts(Header(f));
    buf := buf + Payload(f);
  }

  // ---- Messages: several frames back to back ----

  predicate AllInRange(fs: seq<Frame>, utf8: seq<Byte> -> bool) {
    forall i :: 0 <= i < |fs| ==> InRange(fs[i], utf8)
  }

  function EncodeAll(fs: seq<Frame>, utf8: seq<Byte> -> bool): (s: seq<Byte>)
    requires AllInRange(fs, utf8)
  {
    if fs == [] then [] else EncodeFrame(fs[0]) + EncodeAll(fs[1..], utf8)
  }

  /** Frames decoded before the first failure, and that failure if there was one. */
  datatype Decoded = Decoded(frames: seq<Frame>, failure: Option<FrameError>)

  function DecodeAll(s: seq<Byte>, utf8: seq<Byte> -> bool): (d: Decoded)
    decreases |s|
  {
    if s == [] then Decoded([], None)
    else
      match DecodeFrame(s, utf8)
      case Failed(e) => Decoded([], Some(e))
      case Parsed(f, rest) =>
        var d := DecodeAll(rest, utf8);
        Decoded([f] + d.frames, d.failure)
  }

  /** A message made of encoded frames decodes to exactly those frames. */
  lemma {:induction false} MessageRoundTrip(fs: seq<Frame>, utf8: seq<Byte> -> bool)
    requires AllInRange(fs, utf8)
    ensures DecodeAll(EncodeAll(fs, utf8), utf8) == Decoded(fs, None)
  {
    hide DecodeFrame, EncodeFrame;
    if fs != [] {
      FrameRoundTrip(fs[0], EncodeAll(fs[1..], utf8), utf8);
      MessageRoundTrip(fs[1..], utf8);
    }
  }

  /** A message cut inside a frame yields the frames before the cut and reports truncation. */
  lemma {:induction false} CutMessage(fs: seq<Frame>, last: Frame, k: nat, utf8: seq<Byte> -> bool)
    requires AllInRange(fs, utf8) && InRange(last, utf8)
    requires 0 < k < |EncodeFrame(last)|
    ensures DecodeAll(EncodeAll(fs, utf8) + EncodeFrame(last)[..k], utf8) == Decoded(fs, Some(Truncated))
  {
    hide DecodeFrame, EncodeFrame;
    var cut := EncodeFrame(last)[..k];
    if fs == [] {
      assert EncodeAll(fs, utf8) + cut == cut;
      FrameProperPrefixFails(last, k, utf8);
    } else {
      var rest := EncodeAll(fs[1..], utf8) + cut;
      assert EncodeAll(fs, utf8) + cut == EncodeFrame(fs[0]) + rest;
      FrameRoundTrip(fs[0], rest, utf8);
      CutMessage(fs[1..], last, k, utf8);
    }
  }

  lemma {:induction false} EncodeAllAppend(a: seq<Frame>, b: seq<Frame>, utf8: seq<Byte> -> bool)
    requires AllInRange(a, utf8) && AllInRange(b, utf8)
    ensures AllInRange(a + b, utf8)
    ensures EncodeAll(a + b, utf8) == EncodeAll(a, utf8) + EncodeAll(b, utf8)
  {
    hide EncodeFrame;
    if a == [] {
      assert a + b == b;
    } else {
      EncodeAllAppend(a[1..], b, utf8);
      assert (a + b)[1..] == a[1..] + b;
    }
  }

  /** What the inbound task does with one binary message: refuse it when oversized, otherwise
      hand over frame after frame until the bytes run out or one does not decode. */
  method DecodeMessage(data: seq<Byte>, maxSize: nat, utf8: seq<Byte> -> bool)
    returns (frames: seq<Frame>, error: Option<nat>)
    ensures |data| > maxSize ==> frames == [] && error == Some(2)
    ensures |data| <= maxSize ==>
              && frames == DecodeAll(data, utf8).frames
              && error == (if DecodeAll(data, utf8).failure.Some? then Some(1) else None)
    ensures AllInRange(frames, utf8)
  {
    hide DecodeFrame;
    frames, error := [], None;
    if |data| > maxSize { return [], Some(2); }
    var cursor := data;
    while cursor != []
      invariant error.None?
      invariant DecodeAll(data, utf8).frames == frames + DecodeAll(cursor, utf8).frames
      invariant DecodeAll(data, utf8).failure == DecodeAll(cursor, utf8).failure
      invariant AllInRange(frames, utf8)
      decreases |cursor|
    {
      match DecodeFrame(cursor, utf8)
      case Failed(_) =>
        error := Some(1);
        return;
      case Parsed(f, rest) =>
        DecodedFrameInRange(cursor, utf8);
        frames := frames + [f];
        cursor := rest;
    }
  }
}
