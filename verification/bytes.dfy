/** Fixed-width integers as they are laid out in a serialized asset stream,
    and the unchecked C# conversions the decoder and exporter apply to them. */
module Bytes {

  type byte = x: int | 0 <= x < 0x100
  type u16 = x: int | 0 <= x < 0x1_0000
  type u32 = x: int | 0 <= x < 0x1_0000_0000
  type i32 = x: int | -0x8000_0000 <= x < 0x8000_0000

  /** Byte order of a serialized file, fixed by its header. */
  datatype Endian = Little | Big

  /** A float32 kept as its IEEE 754 bit pattern: it is only copied, never computed with. */
  datatype Single = Single(bits: u32)

  /** 0.0f, the value of a float field that was never read. */
  const ZeroSingle: Single := Single(0)
  /** 1.0f */
  const OneSingle: Single := Single(0x3F80_0000)

  function Pow256(n: nat): (r: nat)
    ensures r > 0
  {
    if n == 0 then 1 else 256 * Pow256(n - 1)
  }

  lemma Pow256Widths()
    ensures Pow256(1) == 0x100
    ensures Pow256(2) == 0x1_0000
    ensures Pow256(4) == 0x1_0000_0000
  {
    assert Pow256(1) == 256 * Pow256(0);
    assert Pow256(2) == 256 * Pow256(1);
    assert Pow256(3) == 256 * Pow256(2);
    assert Pow256(4) == 256 * Pow256(3);
  }

  /** The unsigned number whose least significant byte comes first in `bs`. */
  function LeValue(bs: seq<byte>): (r: nat)
    ensures r < Pow256(|bs|)
  {
    if |bs| == 0 then 0 else bs[0] + 256 * LeValue(bs[1..])
  }

  /** The n bytes of u, least significant first (u is taken modulo 256^n). */
  function LeBytes(u: nat, n: nat): (bs: seq<byte>)
    ensures |bs| == n
  {
    if n == 0 then [] else [u % 256] + LeBytes(u / 256, n - 1)
  }

  lemma {:induction false} LeValueOfLeBytes(u: nat, n: nat)
    requires u < Pow256(n)
    ensures LeValue(LeBytes(u, n)) == u
  {
    if n > 0 {
      LeValueOfLeBytes(u / 256, n - 1);
      assert LeBytes(u, n)[1..] == LeBytes(u / 256, n - 1);
    }
  }

  /** The unsigned number whose most significant byte comes first in `bs`. */
  function BeValue(bs: seq<byte>): (r: nat)
    ensures r < Pow256(|bs|)
  {
    if |bs| == 0 then 0 else bs[|bs| - 1] + 256 * BeValue(bs[..|bs| - 1])
  }

  /** The n bytes of u, most significant first (u is taken modulo 256^n). */
  function BeBytes(u: nat, n: nat): (bs: seq<byte>)
    ensures |bs| == n
  {
    if n == 0 then [] else BeBytes(u / 256, n - 1) + [u % 256]
  }

  lemma {:induction false} BeValueOfBeBytes(u: nat, n: nat)
    requires u < Pow256(n)
    ensures BeValue(BeBytes(u, n)) == u
  {
    if n > 0 {
      BeValueOfBeBytes(u / 256, n - 1);
      assert BeBytes(u, n)[..n - 1] == BeBytes(u / 256, n - 1);
    }
  }

  /** The unsigned number stored in `bs` in byte order `e`. */
  function Unsigned(bs: seq<byte>, e: Endian): (r: nat)
    ensures r < Pow256(|bs|)
  {
    match e
    case Little => LeValue(bs)
    case Big => BeValue(bs)
  }

  /** The n bytes that store u in byte order `e`. */
  function UnsignedBytes(u: nat, n: nat, e: Endian): (bs: seq<byte>)
    ensures |bs| == n
  {
    match e
    case Little => LeBytes(u, n)
    case Big => BeBytes(u, n)
  }

  lemma UnsignedOfUnsignedBytes(u: nat, n: nat, e: Endian)
    requires u < Pow256(n)
    ensures Unsigned(UnsignedBytes(u, n, e), e) == u
  {
    match e
    case Little => LeValueOfLeBytes(u, n);
    case Big => BeValueOfBeBytes(u, n);
  }

  /** Reinterprets 32 bits as a two's-complement int. */
  function ToInt32(u: u32): (x: i32)
    ensures (x - u) % 0x1_0000_0000 == 0
  {
    if u < 0x8000_0000 then u else u - 0x1_0000_0000
  }

  /** The 32 bits of a two's-complement int. */
  function Int32Bits(x: i32): (u: u32)
    ensures ToInt32(u) == x
  {
    x % 0x1_0000_0000
  }

  /** C#'s unchecked `(int)` of a wider integer: the low 32 bits, read as signed. */
  function WrapInt32(x: int): (r: i32)
    ensures (r - x) % 0x1_0000_0000 == 0
  {
    ToInt32(x % 0x1_0000_0000)
  }

  /** C#'s unchecked `(short)`: the low 16 bits, read as signed. */
  function ToInt16(x: int): (r: int)
    ensures -0x8000 <= r < 0x8000
    ensures (r - x) % 0x1_0000 == 0
  {
    var low := x % 0x1_0000;
    if low < 0x8000 then low else low - 0x1_0000
  }

  /** `(short)` keeps every int16 value and maps the upper half of the uint16 range
      to the negative values. */
  lemma ToInt16OfShort(x: int)
    ensures -0x8000 <= x < 0x8000 ==> ToInt16(x) == x
    ensures 0x8000 <= x < 0x1_0000 ==> ToInt16(x) == x - 0x1_0000
  {
  }

  /** n zero bytes: the content of a zero-initialised C# struct of n bytes. */
  function Zeros(n: nat): (z: seq<byte>)
    ensures |z| == n
    ensures forall i :: 0 <= i < n ==> z[i] == 0
  {
    seq(n, _ => 0)
  }
}
