/** A pure byte reader over a serialized object's bytes: every read takes a position
    and returns the value and the position right after it, or None where the stream
    reader would throw for running past the end. The encoders at the end write each
    primitive the way the readers expect it and are the partners of the round-trip
    lemmas. */
module Cursors {
  import opened Options
  import opened Bytes

  /** The bytes of a serialized file and the byte order its header fixes. A read
      position into it is a plain `nat`; it may lie past the end after an alignment,
      and the next read then fails. */
  datatype Source = Source(data: seq<byte>, endian: Endian)

  function ReadBytes(s: Source, p: nat, n: nat): (r: Option<(seq<byte>, nat)>)
    ensures r.Some? <==> p + n <= |s.data|
    ensures r.Some? ==> r.value.0 == s.data[p..p + n] && r.value.1 == p + n
  {
    if p + n <= |s.data| then Some((s.data[p..p + n], p + n)) else None
  }

  function ReadByte(s: Source, p: nat): (r: Option<(byte, nat)>)
    ensures r.Some? <==> p + 1 <= |s.data|
    ensures r.Some? ==> r.value.0 == s.data[p] && r.value.1 == p + 1
  {
    var b :- ReadBytes(s, p, 1);
    Some((b.0[0], b.1))
  }

  /** The unsigned number in the bytes from offset k up to (not including) offset e,
      in the source's byte order. It indexes the bytes one by one rather than slicing
      them out; UnsignedAtIsSlice relates it to `Unsigned` on the slice. */
  function UnsignedAt(s: Source, k: nat, e: nat): (r: nat)
    requires k <= e <= |s.data|
    ensures r < Pow256(e - k)
    decreases e - k
  {
    if k == e then 0
    else
      match s.endian
      case Little => s.data[k] + 256 * UnsignedAt(s, k + 1, e)
      case Big => s.data[e - 1] + 256 * UnsignedAt(s, k, e - 1)
  }

  lemma {:induction false} UnsignedAtIsSlice(s: Source, k: nat, e: nat)
    requires k <= e <= |s.data|
    ensures UnsignedAt(s, k, e) == Unsigned(s.data[k..e], s.endian)
    decreases e - k
  {
    if k < e {
      var bs := s.data[k..e];
      match s.endian
      case Little =>
        UnsignedAtIsSlice(s, k + 1, e);
        assert bs[1..] == s.data[k + 1..e];
      case Big =>
        UnsignedAtIsSlice(s, k, e - 1);
        assert bs[..|bs| - 1] == s.data[k..e - 1];
    }
  }

  /** The uint16 stored at offset k. */
  function UInt16At(s: Source, k: nat): u16
    requires k + 2 <= |s.data|
  {
    Pow256Widths();
    UnsignedAt(s, k, k + 2)
  }

  /** The int32 stored at offset k. */
  function Int32At(s: Source, k: nat): i32
    requires k + 4 <= |s.data|
  {
    Pow256Widths();
    ToInt32(UnsignedAt(s, k, k + 4))
  }

  /** The float32 stored at offset k. */
  function SingleAt(s: Source, k: nat): Single
    requires k + 4 <= |s.data|
  {
    Pow256Widths();
    Single(UnsignedAt(s, k, k + 4))
  }

  function ReadUInt16(s: Source, p: nat): (r: Option<(u16, nat)>)
    ensures r.Some? <==> p + 2 <= |s.data|
    ensures r.Some? ==> r.value.0 == UInt16At(s, p) && r.value.1 == p + 2
  {
    if p + 2 <= |s.data| then Some((UInt16At(s, p), p + 2)) else None
  }

  function ReadInt32(s: Source, p: nat): (r: Option<(i32, nat)>)
    ensures r.Some? <==> p + 4 <= |s.data|
    ensures r.Some? ==> r.value.0 == Int32At(s, p) && r.value.1 == p + 4
  {
    if p + 4 <= |s.data| then Some((Int32At(s, p), p + 4)) else None
  }

  function ReadSingle(s: Source, p: nat): (r: Option<(Single, nat)>)
    ensures r.Some? <==> p + 4 <= |s.data|
    ensures r.Some? ==> r.value.0 == SingleAt(s, p) && r.value.1 == p + 4
  {
    if p + 4 <= |s.data| then Some((SingleAt(s, p), p + 4)) else None
  }

  /** One byte; any non-zero byte reads as true. */
  function ReadBoolean(s: Source, p: nat): (r: Option<(bool, nat)>)
    ensures r.Some? <==> p + 1 <= |s.data|
    ensures r.Some? ==> r.value.0 == (s.data[p] != 0) && r.value.1 == p + 1
  {
    var b :- ReadByte(s, p);
    Some((b.0 != 0, b.1))
  }

  /** An int32 count followed by that many bytes; a negative count fails. */
  function ReadByteArray(s: Source, p: nat): (r: Option<(seq<byte>, nat)>)
    ensures r.Some? <==> p + 4 <= |s.data| && 0 <= Int32At(s, p) && p + 4 + Int32At(s, p) <= |s.data|
    ensures r.Some? ==> |r.value.0| == Int32At(s, p)
    ensures r.Some? ==> r.value.1 == p + 4 + |r.value.0|
    ensures r.Some? ==> |r.value.0| < 0x8000_0000 && p + 4 + |r.value.0| <= |s.data|
    ensures r.Some? ==> r.value.0 == s.data[p + 4..p + 4 + |r.value.0|]
  {
    var count :- ReadInt32(s, p);
    if count.0 < 0 then None else ReadBytes(s, count.1, count.0)
  }

  /** The least multiple of 4 at or above p: where an aligned reader continues. */
  function RoundUp4(p: nat): (q: nat)
    ensures q % 4 == 0
    ensures p <= q < p + 4
  {
    (p + 3) / 4 * 4
  }

  /** The bytes at position p start with bs. */
  predicate At(s: Source, p: nat, bs: seq<byte>) {
    p + |bs| <= |s.data| && s.data[p..p + |bs|] == bs
  }

  /** Bytes a + b at p are a at p followed by b at q, the position right after a. */
  lemma AtSplit(s: Source, p: nat, a: seq<byte>, b: seq<byte>, q: nat)
    requires q == p + |a|
    requires At(s, p, a + b)
    ensures At(s, p, a)
    ensures At(s, q, b)
  {
    assert s.data[p..p + |a|] == (a + b)[..|a|];
    assert s.data[q..q + |b|] == (a + b)[|a|..];
  }

  // Encoders: the byte strings the readers above decode.

  function EncodeUInt16(x: u16, e: Endian): (bs: seq<byte>)
    ensures |bs| == 2
  {
    UnsignedBytes(x, 2, e)
  }

  function EncodeInt32(x: i32, e: Endian): (bs: seq<byte>)
    ensures |bs| == 4
  {
    UnsignedBytes(Int32Bits(x), 4, e)
  }

  function EncodeSingle(f: Single, e: Endian): (bs: seq<byte>)
    ensures |bs| == 4
  {
    UnsignedBytes(f.bits, 4, e)
  }

  function EncodeBoolean(b: bool): (bs: seq<byte>)
    ensures |bs| == 1
  {
    [if b then 1 else 0]
  }

  /** The zero bytes an aligned writer puts after position p. */
  function Padding(p: nat): (bs: seq<byte>)
    ensures p + |bs| == RoundUp4(p)
  {
    Zeros(RoundUp4(p) - p)
  }

  function EncodeByteArray(bs: seq<byte>, e: Endian): (r: seq<byte>)
    requires |bs| < 0x8000_0000
    ensures |r| == 4 + |bs|
  {
    EncodeInt32(|bs|, e) + bs
  }

  lemma ReadUInt16OfEncoded(s: Source, p: nat, x: u16)
    requires At(s, p, EncodeUInt16(x, s.endian))
    ensures ReadUInt16(s, p) == Some((x, p + 2))
  {
    UInt16AtOfEncoded(s, p, x);
  }

  lemma ReadInt32OfEncoded(s: Source, p: nat, x: i32)
    requires At(s, p, EncodeInt32(x, s.endian))
    ensures ReadInt32(s, p) == Some((x, p + 4))
  {
    Int32AtOfEncoded(s, p, x);
  }

  lemma ReadBooleanOfEncoded(s: Source, p: nat, b: bool)
    requires At(s, p, EncodeBoolean(b))
    ensures ReadBoolean(s, p) == Some((b, p + 1))
  {
    assert s.data[p] == s.data[p..p + 1][0];
  }

  lemma ReadByteArrayOfEncoded(s: Source, p: nat, bs: seq<byte>)
    requires |bs| < 0x8000_0000
    requires At(s, p, EncodeByteArray(bs, s.endian))
    ensures ReadByteArray(s, p) == Some((bs, p + 4 + |bs|))
  {
    AtSplit(s, p, EncodeInt32(|bs|, s.endian), bs, p + 4);
    ReadInt32OfEncoded(s, p, |bs|);
  }

  lemma UInt16AtOfEncoded(s: Source, p: nat, x: u16)
    requires At(s, p, EncodeUInt16(x, s.endian))
    ensures UInt16At(s, p) == x
  {
    Pow256Widths();
    UnsignedAtIsSlice(s, p, p + 2);
    UnsignedOfUnsignedBytes(x, 2, s.endian);
  }

  lemma Int32AtOfEncoded(s: Source, p: nat, x: i32)
    requires At(s, p, EncodeInt32(x, s.endian))
    ensures Int32At(s, p) == x
  {
    Pow256Widths();
    UnsignedAtIsSlice(s, p, p + 4);
    UnsignedOfUnsignedBytes(Int32Bits(x), 4, s.endian);
  }

  lemma SingleAtOfEncoded(s: Source, p: nat, f: Single)
    requires At(s, p, EncodeSingle(f, s.endian))
    ensures SingleAt(s, p) == f
  {
    Pow256Widths();
    UnsignedAtIsSlice(s, p, p + 4);
    UnsignedOfUnsignedBytes(f.bits, 4, s.endian);
  }
}
