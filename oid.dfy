/**
 * Object identifiers: an immutable byte sequence whose equality and hash
 * depend on the content only, with a prefix test.
 */
module Oids {
  import opened Wrappers

  /** The value an OID object stands for: its content bytes. */
  datatype Oid = Oid(bytes: seq<byte>)

  /** Reference definition of the prefix test. */
  predicate StartsWith(s: seq<byte>, prefix: seq<byte>)
  {
    |prefix| <= |s| && s[..|prefix|] == prefix
  }

  lemma StartsWithEmpty(s: seq<byte>)
    ensures StartsWith(s, [])
  {
  }

  lemma StartsWithItself(s: seq<byte>)
    ensures StartsWith(s, s)
  {
  }

  lemma LongerPrefixNeverMatches(s: seq<byte>, prefix: seq<byte>)
    requires |prefix| > |s|
    ensures !StartsWith(s, prefix)
  {
  }

  lemma StartsWithTransitive(s: seq<byte>, p: seq<byte>, q: seq<byte>)
    requires StartsWith(s, p) && StartsWith(p, q)
    ensures StartsWith(s, q)
  {
    assert s[..|q|] == s[..|p|][..|q|];
  }

  /** Two's complement wrap-around of Java's 32-bit `int`. */
  function Wrap32(x: int): (r: int)
    ensures -0x8000_0000 <= r < 0x8000_0000
    ensures (r - x) % 0x1_0000_0000 == 0
  {
    (x + 0x8000_0000) % 0x1_0000_0000 - 0x8000_0000
  }

  /**
   * `Arrays.hashCode(byte[])`: starting from 1, each element (as a signed byte)
   * is added to 31 times the hash so far, in 32-bit arithmetic.
   */
  function ArraysHashCode(s: seq<byte>): (h: int)
    ensures -0x8000_0000 <= h < 0x8000_0000
  {
    if |s| == 0 then 1
    else Wrap32(31 * ArraysHashCode(s[..|s| - 1]) + Signed(s[|s| - 1]))
  }

  /** What `equals(Object)` may be handed. */
  datatype JavaObject =
    | NullReference
    | OidReference(oid: GenericOid)
    | OtherReference

  /** A fresh copy of a byte array, as Java's `clone()` makes. */
  method CloneBytes(a: array<byte>) returns (c: array<byte>)
    ensures fresh(c)
    ensures c[..] == a[..]
  {
    c := new byte[a.Length](i reads a requires 0 <= i < a.Length => a[i]);
  }

  class GenericOid {
    /** Set once, to a private copy, and never changed afterwards. */
    const oidByteArray: array<byte>

    function Value(): Oid
      reads oidByteArray
    {
      Oid(oidByteArray[..])
    }

    /** The constructor proper, once the argument is known not to be null. */
    constructor (byteArrayRepresentation: array<byte>)
      ensures fresh(oidByteArray)
      ensures Value() == Oid(byteArrayRepresentation[..])
    {
      var copy := CloneBytes(byteArrayRepresentation);
      oidByteArray := copy;
    }

    /** `new GenericOid(bytes)`: a null argument throws a NullPointerException. */
    static method Create(byteArrayRepresentation: array?<byte>) returns (r: Result<GenericOid, JavaException>)
      ensures byteArrayRepresentation == null ==> r == Failure(NullPointerException)
      ensures byteArrayRepresentation != null ==>
        && r.Success?
        && fresh(r.value) && fresh(r.value.oidByteArray)
        && r.value.Value() == Oid(byteArrayRepresentation[..])
    {
      if byteArrayRepresentation == null {
        return Failure(NullPointerException);
      }
      var oid := new GenericOid(byteArrayRepresentation);
      r := Success(oid);
    }

    /** A fresh copy of the content: callers cannot reach the stored array. */
    method ToByteArray() returns (a: array<byte>)
      ensures fresh(a)
      ensures a[..] == Value().bytes
    {
      a := CloneBytes(oidByteArray);
    }

    /** True exactly for another OID with byte-for-byte equal content. */
    predicate Equals(anotherOid: JavaObject)
      reads oidByteArray
      reads if anotherOid.OidReference? then {anotherOid.oid.oidByteArray} else {}
    {
      match anotherOid
      case NullReference => false
      case OtherReference => false
      case OidReference(other) => oidByteArray[..] == other.oidByteArray[..]
    }

    function HashCode(): int
      reads oidByteArray
    {
      ArraysHashCode(oidByteArray[..])
    }

    /** Tests whether the content starts with `oidPrefix`; a null prefix throws. */
    method StartsWithPrefix(oidPrefix: array?<byte>) returns (r: Result<bool, JavaException>)
      ensures oidPrefix == null ==> r == Failure(NullPointerException)
      ensures oidPrefix != null ==> r == Success(StartsWith(Value().bytes, oidPrefix[..]))
    {
      if oidPrefix == null {
        return Failure(NullPointerException);
      }
      if oidPrefix.Length > oidByteArray.Length {
        return Success(false);
      }
      if oidPrefix.Length == 0 {
        return Success(true);
      }
      var i := 0;
      while i < oidPrefix.Length
        invariant 0 <= i <= oidPrefix.Length <= oidByteArray.Length
        invariant forall k :: 0 <= k < i ==> oidPrefix[k] == oidByteArray[k]
      {
        if oidPrefix[i] != oidByteArray[i] {
          return Success(false);
        }
        i := i + 1;
      }
      assert oidByteArray[..oidPrefix.Length] == oidPrefix[..];
      return Success(true);
    }

    function GetLength(): (n: int)
      reads oidByteArray
      ensures n == |Value().bytes|
    {
      oidByteArray.Length
    }
  }

  /** `equals` is an equivalence relation on OID objects. */
  lemma EqualsIsEquivalence(a: GenericOid, b: GenericOid, c: GenericOid)
    ensures a.Equals(OidReference(a))
    ensures a.Equals(OidReference(b)) ==> b.Equals(OidReference(a))
    ensures a.Equals(OidReference(b)) && b.Equals(OidReference(c)) ==> a.Equals(OidReference(c))
  {
  }

  /** Equal OIDs have equal hash codes, as the `hashCode` contract demands. */
  lemma HashCodeAgreesWithEquals(a: GenericOid, b: GenericOid)
    requires a.Equals(OidReference(b))
    ensures a.HashCode() == b.HashCode()
  {
  }

  /** `equals` coincides with equality of the content values. */
  lemma EqualsIsValueEquality(a: GenericOid, other: JavaObject)
    ensures a.Equals(other) <==> other.OidReference? && a.Value() == other.oid.Value()
  {
  }

  /**
   * The copy made on construction isolates the OID from its caller: writing
   * into the array that was passed in does not change the OID.
   */
  method CallerWritesDoNotReachOid(b: array<byte>, x: byte) returns (oid: GenericOid)
    modifies b
    ensures oid.Value() == Oid(old(b[..]))
    ensures b.Length > 0 ==> b[0] == x
  {
    oid := new GenericOid(b);
    if b.Length > 0 {
      b[0] := x;
    }
  }
}
