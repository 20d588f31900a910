/** The vertex-stream bitmask of ParticleSystemRenderer (versions 5.5 up to 5.6):
    bit i of an int32 mask, for i in 0..7, says that stream i is used. */
module VertexStreamMask {
  import opened Bytes

  function Pow2(n: nat): (r: nat)
    ensures r > 0
  {
    if n == 0 then 1 else 2 * Pow2(n - 1)
  }

  /** Bit i of the two's-complement integer m, i.e. `(m & (1 << i)) != 0`; Dafny's
      division by 2 rounds down, so negative masks keep their two's-complement bits. */
  function Bit(m: int, i: nat): bool
    decreases i
  {
    if i == 0 then m % 2 == 1 else Bit(m / 2, i - 1)
  }

  predicate StrictlyIncreasing(s: seq<byte>) {
    forall i, j :: 0 <= i < j < |s| ==> s[i] < s[j]
  }

  /** The stream indices from i up to 7 whose bit is set in mask, in increasing order. */
  function StreamsFrom(mask: int, i: nat): (r: seq<byte>)
    requires i <= 8
    // mask never changes; naming it in the measure keeps the verifier from unfolding
    // a call at a literal index all the way down
    decreases 8 - i, mask
    ensures |r| <= 8 - i
    ensures forall k :: 0 <= k < |r| ==> i <= r[k] < 8
    ensures StrictlyIncreasing(r)
    ensures forall b: byte :: b in r <==> i <= b < 8 && Bit(mask, b)
  {
    if i == 8 then [] else (if Bit(mask, i) then [i as byte] else []) + StreamsFrom(mask, i + 1)
  }

  /** The streams a mask names: exactly the set bits among bits 0..7, in increasing order. */
  function MaskStreams(mask: int): (r: seq<byte>)
    ensures |r| <= 8
    ensures forall k :: 0 <= k < |r| ==> r[k] < 8
    ensures StrictlyIncreasing(r)
    ensures forall b: byte :: b in r <==> b < 8 && Bit(mask, b)
  {
    StreamsFrom(mask, 0)
  }

  lemma StreamsFromStep(mask: int, i: nat)
    requires i < 8
    ensures StreamsFrom(mask, i) == (if Bit(mask, i) then [i as byte] else []) + StreamsFrom(mask, i + 1)
  {
  }

  lemma ConcatAssoc(a: seq<byte>, b: seq<byte>, c: seq<byte>)
    ensures a + (b + c) == (a + b) + c
  {
  }

  /** The decoding loop as the reader runs it: test bits 0 to 7 in turn and append
      each index whose bit is set. */
  method CollectMaskStreams(mask: int) returns (streams: seq<byte>)
    ensures streams == MaskStreams(mask)
    ensures forall b: byte :: b in streams <==> b < 8 && Bit(mask, b)
  {
    streams := [];
    var i: nat := 0;
    while i < 8
      invariant i <= 8
      invariant streams + StreamsFrom(mask, i) == MaskStreams(mask)
    {
      var step := if Bit(mask, i) then [i as byte] else [];
      StreamsFromStep(mask, i);
      ConcatAssoc(streams, step, StreamsFrom(mask, i + 1));
      streams := streams + step;
      i := i + 1;
    }
  }

  /** Two increasing sequences with the same elements are the same sequence. */
  lemma {:induction false} IncreasingUnique(a: seq<byte>, b: seq<byte>)
    requires StrictlyIncreasing(a) && StrictlyIncreasing(b)
    requires forall x: byte :: x in a <==> x in b
    ensures a == b
  {
    assert |b| > 0 ==> b[0] in b;
    if |a| > 0 {
      assert a[0] in b;
      assert |b| > 0;
      assert b[0] in a;
      assert a[0] == b[0];
      forall x: byte
        ensures x in a[1..] <==> x in b[1..]
      {
        if x in a[1..] {
          assert x in a && x != a[0];
        }
        if x in b[1..] {
          assert x in b && x != b[0];
        }
        if x in a && x != a[0] {
          var k :| 0 <= k < |a| && a[k] == x;
          assert a[1..][k - 1] == x;
        }
        if x in b && x != b[0] {
          var k :| 0 <= k < |b| && b[k] == x;
          assert b[1..][k - 1] == x;
        }
      }
      IncreasingUnique(a[1..], b[1..]);
      assert a == [a[0]] + a[1..];
      assert b == [b[0]] + b[1..];
    }
  }

  /** Adding a multiple of 2^k leaves the bits below k alone. */
  lemma {:induction false} BitIgnoresHigh(m: int, t: int, k: nat, i: nat)
    requires i < k
    ensures Bit(m + Pow2(k) * t, i) == Bit(m, i)
    decreases i
  {
    var u := Pow2(k - 1) * t;
    assert Pow2(k) * t == 2 * u;
    if i > 0 {
      assert (m + 2 * u) / 2 == m / 2 + u;
      BitIgnoresHigh(m / 2, t, k - 1, i - 1);
    }
  }

  /** Bits 8 and above of the mask have no effect on the streams. */
  lemma MaskIgnoresHighBits(m: int, t: int)
    ensures MaskStreams(m + 256 * t) == MaskStreams(m)
    ensures MaskStreams(m) == MaskStreams(m % 256)
  {
    assert Pow2(8) == 256;
    forall b: byte | b < 8
      ensures Bit(m + 256 * t, b) == Bit(m, b)
    {
      BitIgnoresHigh(m, t, 8, b);
    }
    IncreasingUnique(MaskStreams(m + 256 * t), MaskStreams(m));
    var low := m % 256;
    var high := m / 256;
    assert m == low + 256 * high;
    forall b: byte | b < 8
      ensures Bit(low + 256 * high, b) == Bit(low, b)
    {
      BitIgnoresHigh(low, high, 8, b);
    }
    IncreasingUnique(MaskStreams(low + 256 * high), MaskStreams(low));
  }

  /** Bits i.. of the mask an encoder writes for the stream list s. */
  function MaskFrom(s: seq<byte>, i: nat): (m: nat)
    requires i <= 8
    // s never changes; named in the measure for the same reason as in StreamsFrom
    decreases 8 - i, s
    ensures m < Pow2(8 - i)
  {
    if i == 8 then 0 else (if (i as byte) in s then 1 else 0) + 2 * MaskFrom(s, i + 1)
  }

  /** The mask whose set bits are the stream indices below 8 listed in s. */
  function MaskOf(s: seq<byte>): (m: nat)
    ensures m < 256
  {
    assert Pow2(8) == 256;
    MaskFrom(s, 0)
  }

  lemma {:induction false} BitOfMaskFrom(s: seq<byte>, i: nat, k: nat)
    requires i + k < 8
    ensures Bit(MaskFrom(s, i), k) == ((i + k) as byte in s)
    decreases k
  {
    var low := if (i as byte) in s then 1 else 0;
    assert MaskFrom(s, i) == low + 2 * MaskFrom(s, i + 1);
    if k > 0 {
      assert MaskFrom(s, i) / 2 == MaskFrom(s, i + 1);
      BitOfMaskFrom(s, i + 1, k - 1);
    }
  }

  /** Decoding the mask of an increasing list of stream indices below 8 gives the list back. */
  lemma MaskStreamsOfMask(s: seq<byte>)
    requires StrictlyIncreasing(s)
    requires forall k :: 0 <= k < |s| ==> s[k] < 8
    ensures MaskStreams(MaskOf(s)) == s
  {
    forall b: byte | b < 8
      ensures Bit(MaskOf(s), b) == (b in s)
    {
      BitOfMaskFrom(s, 0, b);
    }
    IncreasingUnique(MaskStreams(MaskOf(s)), s);
  }
}
