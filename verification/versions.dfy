/** The producing engine's version and the comparisons the decoders gate their
    fields on. */
module Versions {

  /** Release type, in rank order. */
  datatype VersionType = Alpha | Beta | Final | Patch | China

  function Rank(t: VersionType): (n: nat)
    ensures n < 5
  {
    match t
    case Alpha => 0
    case Beta => 1
    case Final => 2
    case Patch => 3
    case China => 4
  }

  datatype Version = Version(major: nat, minor: nat, patch: nat, kind: VersionType, build: nat)

  function Sign(d: int): (s: int)
    ensures -1 <= s <= 1
    ensures (s < 0 <==> d < 0) && (s == 0 <==> d == 0)
  {
    if d < 0 then -1 else if d == 0 then 0 else 1
  }

  /** Three-way comparison: -1, 0 or 1 as a is below, equal to or above b, comparing
      major, minor, patch, release-type rank and build in that order. */
  function Compare(a: Version, b: Version): (r: int)
    ensures -1 <= r <= 1
    ensures r == 0 <==> a == b
  {
    if a.major != b.major then Sign(a.major - b.major)
    else if a.minor != b.minor then Sign(a.minor - b.minor)
    else if a.patch != b.patch then Sign(a.patch - b.patch)
    else if Rank(a.kind) != Rank(b.kind) then Sign(Rank(a.kind) - Rank(b.kind))
    else Sign(a.build - b.build)
  }

  /** The comparison gives the same answer whichever way round it is asked. */
  lemma CompareAntisymmetric(a: Version, b: Version)
    ensures Compare(a, b) == -Compare(b, a)
  {
  }

  /** The order Compare induces: a is at or below b. */
  predicate AtMost(a: Version, b: Version) {
    Compare(a, b) <= 0
  }

  lemma AtMostTransitive(a: Version, b: Version, c: Version)
    requires AtMost(a, b) && AtMost(b, c)
    ensures AtMost(a, c)
  {
  }

  lemma AtMostTotal(a: Version, b: Version)
    ensures AtMost(a, b) || AtMost(b, a)
    ensures AtMost(a, b) && AtMost(b, a) ==> a == b
  {
  }

  /** v is at or above the threshold t. */
  predicate IsGreaterEqual(v: Version, t: Version) {
    AtMost(t, v)
  }

  /** v is strictly below the threshold t. */
  predicate IsLess(v: Version, t: Version) {
    !AtMost(t, v)
  }

  /** The threshold "major.minor": the least version of that release line. */
  function Release(major: nat, minor: nat): Version {
    Version(major, minor, 0, Alpha, 0)
  }

  /** A (major, minor) threshold compares only the release line. */
  lemma ReleaseThreshold(v: Version, major: nat, minor: nat)
    ensures IsGreaterEqual(v, Release(major, minor)) <==> v.major > major || (v.major == major && v.minor >= minor)
    ensures IsLess(v, Release(major, minor)) <==> v.major < major || (v.major == major && v.minor < minor)
  {
  }

  /** Being at or above a threshold is preserved by moving up. */
  lemma GreaterEqualMonotone(a: Version, b: Version, t: Version)
    requires IsGreaterEqual(a, t) && AtMost(a, b)
    ensures IsGreaterEqual(b, t)
  {
    AtMostTransitive(t, a, b);
  }
}
