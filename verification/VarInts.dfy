/** Variable-length integers (section 16 of RFC 9000): two tag bits in the first
    byte select a length of 1, 2, 4 or 8 bytes; the value follows in big-endian order. */
module VarInts {

  type Byte = b: int | 0 <= b < 256

  const MAX_1BYTE: nat := 0x3F
  const MAX_2BYTE: nat := 0x3FFF
  const MAX_4BYTE: nat := 0x3FFF_FFFF
  const MAX: nat := 0x3FFF_FFFF_FFFF_FFFF

  /** What a decoder returns: a value and the bytes it left unread, or an error. */
  datatype Parse<+T, +E> = Parsed(value: T, rest: seq<Byte>) | Failed(error: E)

  datatype UnexpectedEnd = UnexpectedEnd

  // ---- Big-endian numbers: the bytes put_u16, put_u32 and put_u64 write ----

  function Pow256(n: nat): (p: nat)
    ensures p > 0
  {
    if n == 0 then 1 else 256 * Pow256(n - 1)
  }

  function BigEndian(x: nat, n: nat): (s: seq<Byte>)
    ensures |s| == n
  {
    if n == 0 then [] else BigEndian(x / 256, n - 1) + [x % 256]
  }

  function FromBigEndian(s: seq<Byte>): (x: nat) {
    if s == [] then 0 else FromBigEndian(s[..|s| - 1]) * 256 + s[|s| - 1]
  }

  lemma {:induction false} BigEndianInverse(x: nat, n: nat)
    requires x < Pow256(n)
    ensures FromBigEndian(BigEndian(x, n)) == x
  {
    if n > 0 {
      BigEndianInverse(x / 256, n - 1);
      assert BigEndian(x, n)[..n - 1] == BigEndian(x / 256, n - 1);
    }
  }

  lemma {:induction false} FromBigEndianBound(s: seq<Byte>)
    ensures FromBigEndian(s) < Pow256(|s|)
  {
    if s != [] { FromBigEndianBound(s[..|s| - 1]); }
  }

  /** The most significant byte comes first. */
  lemma {:induction false} FromBigEndianHead(b: Byte, tail: seq<Byte>)
    ensures FromBigEndian([b] + tail) == b * Pow256(|tail|) + FromBigEndian(tail)
  {
    var s := [b] + tail;
    if tail != [] {
      var front := tail[..|tail| - 1];
      assert s[..|s| - 1] == [b] + front;
      FromBigEndianHead(b, front);
      assert b * Pow256(|tail|) == 256 * (b * Pow256(|front|));
    }
  }

  lemma Powers()
    ensures Pow256(0) == 1 && Pow256(1) == 0x100 && Pow256(2) == 0x1_0000 && Pow256(3) == 0x100_0000
    ensures Pow256(4) == 0x1_0000_0000 && Pow256(7) == 0x100_0000_0000_0000
    ensures Pow256(8) == 0x1_0000_0000_0000_0000
  {
    assert Pow256(5) == 256 * Pow256(4);
    assert Pow256(7) == 256 * Pow256(6);
  }

  // ---- The codec ----

  /** The length that the encoder picks for a value. */
  function Size(x: nat): (n: nat)
    requires x <= MAX
    ensures n in {1, 2, 4, 8}
  {
    if x <= MAX_1BYTE then 1 else if x <= MAX_2BYTE then 2 else if x <= MAX_4BYTE then 4 else 8
  }

  /** The two tag bits, moved to the top of an encoding of n bytes. */
  function Marker(n: nat): (m: nat) {
    if n == 2 then 0x4000 else if n == 4 then 0x8000_0000 else if n == 8 then 0xC000_0000_0000_0000 else 0
  }

  function Encode(x: nat): (s: seq<Byte>)
    requires x <= MAX
    ensures |s| == Size(x)
  {
    BigEndian(Marker(Size(x)) + x, Size(x))
  }

  /** Length announced by the tag bits of a first byte. */
  function Width(first: Byte): (n: nat)
    ensures n in {1, 2, 4, 8}
  {
    match first / 64 case 0 => 1 case 1 => 2 case 2 => 4 case _ => 8
  }

  function Decode(s: seq<Byte>): (r: Parse<nat, UnexpectedEnd>)
    ensures r.Parsed? ==> |r.rest| < |s| && r.rest == s[|s| - |r.rest|..]
  {
    if s == [] then Failed(UnexpectedEnd)
    else
      var n := Width(s[0]);
      if |s| < n then Failed(UnexpectedEnd)
      else Parsed(s[0] % 64 * Pow256(n - 1) + FromBigEndian(s[1..n]), s[n..])
  }

  /** The tag is in the top two bits of the first byte. */
  lemma Untag(x: nat, first: Byte, tail: nat)
    requires x <= MAX && tail < Pow256(Size(x) - 1)
    requires first * Pow256(Size(x) - 1) + tail == Marker(Size(x)) + x
    ensures Width(first) == Size(x) && first % 64 * Pow256(Size(x) - 1) + tail == x
  {
    Powers();
    hide Pow256;
  }

  /** Splitting an encoding into its tagged first byte and its tail. */
  lemma EncodeSplit(x: nat)
    requires x <= MAX
    ensures var n := Size(x);
            var e := Encode(x);
            && Width(e[0]) == n
            && e[0] % 64 * Pow256(n - 1) + FromBigEndian(e[1..]) == x
  {
    hide BigEndian, FromBigEndian, Pow256;
    var n, e := Size(x), Encode(x);
    assert Marker(n) + x < Pow256(n) by { Powers(); }
    BigEndianInverse(Marker(n) + x, n);
    assert e == [e[0]] + e[1..];
    FromBigEndianHead(e[0], e[1..]);
    FromBigEndianBound(e[1..]);
    Untag(x, e[0], FromBigEndian(e[1..]));
  }

  /** Decoding undoes encoding and leaves exactly what follows. */
  lemma RoundTrip(x: nat, suffix: seq<Byte>)
    requires x <= MAX
    ensures Decode(Encode(x) + suffix) == Parsed(x, suffix)
  {
    var n, e := Size(x), Encode(x);
    EncodeSplit(x);
    assert (e + suffix)[0] == e[0];
    assert (e + suffix)[1..n] == e[1..];
    assert (e + suffix)[n..] == suffix;
    Powers();
  }

  // ---- The format, byte by byte ----

  /** The number whose leading part is given and whose remaining bytes follow, most significant first. */
  function ShiftIn(leading: nat, bytes: seq<Byte>): (x: nat)
    decreases |bytes|
  {
    if bytes == [] then leading else ShiftIn(leading * 256 + bytes[0], bytes[1..])
  }

  lemma {:induction false} ShiftInIs(leading: nat, bytes: seq<Byte>)
    ensures ShiftIn(leading, bytes) == leading * Pow256(|bytes|) + FromBigEndian(bytes)
    decreases |bytes|
  {
    if bytes != [] {
      hide FromBigEndian;
      var b, tail := bytes[0], bytes[1..];
      ShiftInIs(leading * 256 + b, tail);
      FromBigEndianHead(b, tail);
      assert bytes == [b] + tail;
      assert (leading * 256 + b) * Pow256(|tail|) == leading * (256 * Pow256(|tail|)) + b * Pow256(|tail|);
    }
  }

  /** Read n bytes, of which the first carries two tag bits worth `tag` on top. */
  function Tagged(s: seq<Byte>, n: nat, tag: nat): (r: Parse<nat, UnexpectedEnd>) {
    if |s| < n || n == 0 || s[0] < tag then Failed(UnexpectedEnd) else Parsed(ShiftIn(s[0] - tag, s[1..n]), s[n..])
  }

  /** What a decoder makes of any bytes: top bits 00, 01, 10 and 11 of the first byte announce 1, 2, 4 and 8 bytes, and
      the other bits are the value, most significant byte first. */
  lemma DecodeForm(s: seq<Byte>)
    ensures s == [] ==> Decode(s) == Failed(UnexpectedEnd)
    ensures s != [] && s[0] < 0x40 ==> Decode(s) == Tagged(s, 1, 0)
    ensures s != [] && 0x40 <= s[0] < 0x80 ==> Decode(s) == Tagged(s, 2, 0x40)
    ensures s != [] && 0x80 <= s[0] < 0xC0 ==> Decode(s) == Tagged(s, 4, 0x80)
    ensures s != [] && 0xC0 <= s[0] ==> Decode(s) == Tagged(s, 8, 0xC0)
  {
    hide ShiftIn, FromBigEndian, Pow256;
    if s != [] && |s| >= Width(s[0]) { ShiftInIs(s[0] % 64, s[1..Width(s[0])]); }
  }

  /** And the bytes of every value: the shortest form, tagged, most significant byte first. */
  lemma WireForm(x: nat)
    requires x <= MAX
    ensures x < 0x40 ==> Encode(x) == [x]
    ensures 0x40 <= x < 0x4000 ==> |Encode(x)| == 2 && 0x40 <= Encode(x)[0] < 0x80
                                   && ShiftIn(Encode(x)[0] - 0x40, Encode(x)[1..]) == x
    ensures 0x4000 <= x < 0x4000_0000 ==> |Encode(x)| == 4 && 0x80 <= Encode(x)[0] < 0xC0
                                          && ShiftIn(Encode(x)[0] - 0x80, Encode(x)[1..]) == x
    ensures 0x4000_0000 <= x ==> |Encode(x)| == 8 && 0xC0 <= Encode(x)[0]
                                 && ShiftIn(Encode(x)[0] - 0xC0, Encode(x)[1..]) == x
  {
    hide Encode, Decode, Pow256, FromBigEndian;
    var e := Encode(x);
    EncodeSplit(x);
    RoundTrip(x, []);
    assert e + [] == e && e[1..|e|] == e[1..];
    DecodeForm(e);
    if x < 0x40 { assert e[1..] == [] && e == [e[0]]; }
  }

  /** A proper prefix of an encoding is never taken for a complete one. */
  lemma ProperPrefixFails(x: nat, k: nat)
    requires x <= MAX && k < Size(x)
    ensures Decode(Encode(x)[..k]) == Failed(UnexpectedEnd)
  {
    EncodeSplit(x);
  }

  /** Whatever bytes a peer sends, a decoded value can be encoded again, in no more bytes than it took. */
  lemma DecodedInRange(s: seq<Byte>)
    requires Decode(s).Parsed?
    ensures Decode(s).value <= MAX
    ensures Size(Decode(s).value) <= |s| - |Decode(s).rest|
  {
    var n := Width(s[0]);
    FromBigEndianBound(s[1..n]);
    Powers();
  }

  /** A cursor over received bytes, as `bytes::Buf` offers it. */
  class Cursor {
    var rest: seq<Byte>

    constructor (data: seq<Byte>)
      ensures rest == data
    {
      rest := data;
    }

    method GetU8() returns (b: Byte)
      requires rest != []
      modifies this
      ensures b == old(rest)[0] && rest == old(rest)[1..]
    {
      b := rest[0];
      rest := rest[1..];
    }

    /** Shift `count` more bytes into `body`. */
    method GetTail(body: nat, count: nat) returns (x: nat)
      requires count <= |rest|
      modifies this
      ensures x == body * Pow256(count) + FromBigEndian(old(rest)[..count])
      ensures rest == old(rest)[count..]
    {
      x := body;
      for i := 0 to count
        invariant rest == old(rest)[i..]
        invariant x == body * Pow256(i) + FromBigEndian(old(rest)[..i])
      {
        var b := GetU8();
        assert old(rest)[..i + 1][..i] == old(rest)[..i];
        x := x * 256 + b;
      }
    }

    method GetVarInt() returns (ok: bool, x: nat)
      modifies this
      ensures match Decode(old(rest))
              case Parsed(v, r) => ok && x == v && rest == r
              case Failed(_) => !ok
    {
      if rest == [] { return false, 0; }
      ghost var s := rest;
      var first := GetU8();
      var tag, body := first / 64, first % 64;
      var more := if tag == 0 then 0 else if tag == 1 then 1 else if tag == 2 then 3 else 7;
      if |rest| < more { return false, 0; }
      x := GetTail(body, more);
      assert s[1..][..more] == s[1..more + 1];
      assert s[1..][more..] == s[more + 1..];
      ok := true;
    }
  }
}
