/** VGM format versions, ordered as unsigned 32-bit numbers. */
module Version {
  import opened JavaInt

  /** Java's Integer.compare: -1, 0 or 1. */
  function Compare(x: int, y: int): int {
    if x < y then -1 else if x == y then 0 else 1
  }

  datatype Version = Version(version: Int32)
  {
    /** `compareTo`, i.e. Integer.compareUnsigned, which the JDK computes by
        flipping the sign bit of both operands and comparing them signed. */
    function CompareTo(o: Version): (r: int)
      ensures r == -1 || r == 0 || r == 1
      ensures r < 0 <==> ToUnsigned(version) < ToUnsigned(o.version)
      ensures r == 0 <==> version == o.version
      ensures r > 0 <==> ToUnsigned(version) > ToUnsigned(o.version)
    {
      Compare(Wrap32(version + -0x8000_0000), Wrap32(o.version + -0x8000_0000))
    }
  }

  /** `compareTo` is a total order: antisymmetric in sign and transitive. */
  lemma CompareToAntisymmetric(a: Version, b: Version)
    ensures a.CompareTo(b) == -b.CompareTo(a)
  {
  }

  lemma CompareToTransitive(a: Version, b: Version, c: Version)
    ensures a.CompareTo(b) < 0 && b.CompareTo(c) < 0 ==> a.CompareTo(c) < 0
    ensures a.CompareTo(b) <= 0 && b.CompareTo(c) <= 0 ==> a.CompareTo(c) <= 0
  {
  }

  /** Value equality of versions coincides with `compareTo == 0`. */
  lemma CompareToEquality(a: Version, b: Version)
    ensures a.CompareTo(b) == 0 <==> a == b
  {
  }

  /** A version whose int is negative orders above every non-negative one:
      0xFFFFFFFF is greater than 0x150. */
  lemma NegativeVersionIsLarge(a: Version, b: Version)
    requires a.version < 0 <= b.version
    ensures a.CompareTo(b) > 0
  {
  }
}

/** The version set the vanilla parser accepts (VGMParserVanillaSupported). */
module Supported {
  import opened Version

  /** The sorted set, as the sequence it iterates in. */
  const SUPPORTED: seq<Version> := [Version(0x150), Version(0x170)]

  /** TreeSet.contains, which finds an element by `compareTo`. */
  predicate Contains(v: Version) {
    exists i :: 0 <= i < |SUPPORTED| && SUPPORTED[i].CompareTo(v) == 0
  }

  /** Exactly versions 0x150 and 0x170 are supported. */
  lemma ContainsExactly(v: Version)
    ensures Contains(v) <==> v.version == 0x150 || v.version == 0x170
  {
    if v.version == 0x150 {
      assert SUPPORTED[0].CompareTo(v) == 0;
    } else if v.version == 0x170 {
      assert SUPPORTED[1].CompareTo(v) == 0;
    }
  }

  /** The iteration order is strictly ascending by `compareTo`. */
  lemma AscendingOrder()
    ensures forall i, j :: 0 <= i < j < |SUPPORTED| ==> SUPPORTED[i].CompareTo(SUPPORTED[j]) < 0
  {
  }
}
