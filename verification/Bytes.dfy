/** Octet strings and the one thing done to sensitive ones when they are no longer needed. */
module Bytes {
  type byte = bv8
  type Octets = seq<byte>

  /** The octet of value x. */
  function ByteOf(x: int): (b: byte)
    requires 0 <= x < 256
    ensures b as int == x
  {
    if x == 0 then 0 else ByteOf(x - 1) + 1
  }

  lemma SameValue(a: byte, b: byte)
    requires a as int == b as int
    ensures a == b
  {
  }

  function Xor(a: Octets, b: Octets): (r: Octets)
    requires |a| == |b|
    ensures |r| == |a|
  {
    seq(|a|, i requires 0 <= i < |a| => a[i] ^ b[i])
  }

  predicate AllZero(s: Octets) {
    forall i :: 0 <= i < |s| ==> s[i] == 0
  }

  lemma XorCancels(a: Octets, b: Octets)
    requires |a| == |b|
    ensures Xor(Xor(a, b), b) == a
  {
    forall i | 0 <= i < |a| ensures Xor(Xor(a, b), b)[i] == a[i] {
      ByteXorCancels(a[i], b[i]);
    }
  }

  lemma ByteXorCancels(x: byte, y: byte)
    ensures (x ^ y) ^ y == x
  {
  }

  /** zeroBytes (printer/crypto.go): overwrites the slice in place. */
  method ZeroBytes(b: array<byte>)
    modifies b
    ensures AllZero(b[..]) && forall i :: 0 <= i < b.Length ==> b[i] == 0
  {
    for i := 0 to b.Length
      invariant AllZero(b[..i])
    {
      b[i] := 0;
    }
  }
}
