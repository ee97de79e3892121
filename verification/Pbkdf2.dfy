/** Key derivation for the printer's private key file (printer/crypto.go, pbkdf2Key), against the
    definition of PBKDF2 in section 5.2 of RFC 8018. */
module Pbkdf2 {
  import opened Bytes
  import opened Division

  /** The pseudorandom function, HMAC over some hash: any function with a fixed, positive output length. */
  datatype Prf = Prf(f: (Octets, Octets) -> Octets, size: nat)

  ghost predicate FixedLength(prf: Prf) {
    prf.size > 0 && forall p: Octets, m: Octets :: |prf.f(p, m)| == prf.size
  }

  // ----- section 5.2 of RFC 8018 -----

  /** INT(i): the four-octet encoding of i, most significant octet first. */
  ghost predicate IsInt(enc: Octets, i: nat) {
    |enc| == 4 && Value(enc) == i
  }

  function Value(enc: Octets): nat {
    if enc == [] then 0 else Value(enc[..|enc| - 1]) * 256 + enc[|enc| - 1] as int
  }

  /** U_j of the block whose index is encoded by enc. */
  ghost function U(prf: Prf, p: Octets, s: Octets, enc: Octets, j: nat): (u: Octets)
    requires FixedLength(prf) && j >= 1
    ensures |u| == prf.size
  {
    if j == 1 then prf.f(p, s + enc) else prf.f(p, U(prf, p, s, enc, j - 1))
  }

  /** F(P, S, c, i) = U_1 xor U_2 xor ... xor U_c. */
  ghost function F(prf: Prf, p: Octets, s: Octets, c: nat, enc: Octets): (t: Octets)
    requires FixedLength(prf) && c >= 1
    ensures |t| == prf.size
  {
    if c == 1 then U(prf, p, s, enc, 1) else Xor(F(prf, p, s, c - 1, enc), U(prf, p, s, enc, c))
  }

  /** dk is the first dkLen octets of T_1 || T_2 || ..., where T_i = F(P, S, c, i): octet k comes from
      block k / hLen + 1, at offset k mod hLen. */
  ghost predicate IsDerivedKey(prf: Prf, p: Octets, s: Octets, c: nat, dk: Octets)
    requires FixedLength(prf) && c >= 1
  {
    forall k, enc: Octets :: 0 <= k < |dk| && IsInt(enc, k / prf.size + 1) ==>
      dk[k] == F(prf, p, s, c, enc)[k % prf.size]
  }

  /** The recurrences of the RFC: U_1 = PRF(P, S || INT(i)), U_(j+1) = PRF(P, U_j), and T is their exclusive or. */
  lemma IteratesOfTheRfc(prf: Prf, p: Octets, s: Octets, enc: Octets, j: nat)
    requires FixedLength(prf) && j >= 1
    ensures U(prf, p, s, enc, 1) == prf.f(p, s + enc) && F(prf, p, s, 1, enc) == prf.f(p, s + enc)
    ensures U(prf, p, s, enc, j + 1) == prf.f(p, U(prf, p, s, enc, j))
    ensures forall k :: 0 <= k < prf.size ==>
              F(prf, p, s, j + 1, enc)[k] == F(prf, p, s, j, enc)[k] ^ U(prf, p, s, enc, j + 1)[k]
  {
  }

  /** Octet k of a derived key is octet k mod hLen of T_i for i = k / hLen + 1, the index written in four octets,
      most significant first. */
  lemma OctetsOfTheKey(prf: Prf, p: Octets, s: Octets, c: nat, dk: Octets, k: nat, enc: Octets)
    requires FixedLength(prf) && c >= 1 && IsDerivedKey(prf, p, s, c, dk) && k < |dk| && |enc| == 4
    requires enc[0] as int * 0x100_0000 + enc[1] as int * 0x1_0000 + enc[2] as int * 0x100 + enc[3] as int
             == k / prf.size + 1
    ensures dk[k] == F(prf, p, s, c, enc)[k % prf.size]
  {
    ValueOfFour(enc);
    assert IsInt(enc, k / prf.size + 1);
  }

  // ----- the code -----

  /** byte(i >> 24), byte(i >> 16), byte(i >> 8), byte(i) */
  function BlockIndex(i: nat): Octets {
    [ByteOf(i / 0x100_0000 % 256), ByteOf(i / 0x1_0000 % 256), ByteOf(i / 0x100 % 256), ByteOf(i % 256)]
  }

  /** The four truncated octets encode i as long as i fits them. */
  lemma BlockIndexIsInt(i: nat)
    ensures IsInt(BlockIndex(i), i) <==> i < 0x1_0000_0000
  {
    var b := BlockIndex(i);
    ValueOfFour(b);
    Digits(i);
  }

  lemma ValueOfFour(b: Octets)
    requires |b| == 4
    ensures Value(b) == b[0] as int * 0x100_0000 + b[1] as int * 0x1_0000 + b[2] as int * 0x100 + b[3] as int
  {
    assert b[..3][..2] == b[..2] && b[..2][..1] == b[..1] && b[..1][..0] == [];
    assert Value(b[..1]) == b[0] as int;
    assert Value(b[..2]) == b[0] as int * 0x100 + b[1] as int;
    assert Value(b[..3]) == b[0] as int * 0x1_0000 + b[1] as int * 0x100 + b[2] as int;
  }

  lemma Digits(i: nat)
    ensures i / 0x100_0000 % 256 * 0x100_0000 + i / 0x1_0000 % 256 * 0x1_0000 + i / 0x100 % 256 * 0x100 + i % 256 == i
            <==> i < 0x1_0000_0000
  {
    assert i / 0x1_0000 == i / 0x100 / 0x100;
    assert i / 0x100_0000 == i / 0x1_0000 / 0x100;
  }

  lemma IntIsUnique(x: Octets, y: Octets)
    requires |x| == |y| && Value(x) == Value(y)
    ensures x == y
  {
    if x != [] {
      var n := |x| - 1;
      SameDigits(Value(x[..n]), Value(y[..n]), x[n] as int, y[n] as int);
      SameValue(x[n], y[n]);
      IntIsUnique(x[..n], y[..n]);
      assert x == x[..n] + [x[n]] && y == y[..n] + [y[n]];
    }
  }

  lemma SameDigits(a: nat, b: nat, x: int, y: int)
    requires a * 256 + x == b * 256 + y && 0 <= x < 256 && 0 <= y < 256
    ensures a == b && x == y
  {
  }

  /** The keyed HMAC object: Write appends to the message, Sum writes the digest, Reset starts over. */
  class Hmac {
    const prf: Prf
    const password: Octets
    var message: Octets

    constructor (prf: Prf, password: Octets)
      ensures this.prf == prf && this.password == password && message == []
    {
      this.prf, this.password, message := prf, password, [];
    }

    method Reset()
      modifies this
      ensures message == []
    {
      message := [];
    }

    method Write(b: Octets)
      modifies this
      ensures message == old(message) + b
    {
      message := message + b;
    }

    /** Sum(u[:0]): the digest overwrites u, which may well be what was written before. */
    method SumInto(u: array<byte>)
      requires FixedLength(prf) && u.Length == prf.size
      modifies u
      ensures u[..] == prf.f(password, message)
    {
      var digest := prf.f(password, message);
      for i := 0 to u.Length
        invariant u[..i] == digest[..i]
      {
        u[i] := digest[i];
      }
    }
  }

  /** The body of the outer loop: T_i into t, with u as the scratch buffer of the iterates. */
  method Block(prf: Hmac, salt: Octets, iter: int, i: nat, u: array<byte>, t: array<byte>)
    requires FixedLength(prf.prf) && u.Length == t.Length == prf.prf.size && u != t
    modifies prf, u, t
    ensures t[..] == F(prf.prf, prf.password, salt, if iter < 1 then 1 else iter, BlockIndex(i))
  {
    prf.Reset();
    prf.Write(salt);
    prf.Write(BlockIndex(i));
    assert prf.message == salt + BlockIndex(i);
    prf.SumInto(u);
    for x := 0 to t.Length
      modifies t
      invariant t[..x] == u[..x]
    {
      t[x] := u[x];
    }
    assert t[..] == u[..];
    var n := 2;
    while n <= iter
      invariant n == 2 || n <= iter + 1
      invariant n >= 2
      invariant u[..] == U(prf.prf, prf.password, salt, BlockIndex(i), n - 1)
      invariant t[..] == F(prf.prf, prf.password, salt, n - 1, BlockIndex(i))
      decreases iter - n
    {
      prf.Reset();
      prf.Write(u[..]);
      assert prf.message == u[..];
      prf.SumInto(u);
      XorInto(t, u);
      n := n + 1;
    }
  }

  /** for x := range t { t[x] ^= u[x] } */
  method XorInto(t: array<byte>, u: array<byte>)
    requires t.Length == u.Length && t != u
    modifies t
    ensures t[..] == Xor(old(t[..]), u[..])
  {
    for x := 0 to t.Length
      invariant forall k :: 0 <= k < x ==> t[k] == old(t[k]) ^ u[k]
      invariant forall k :: x <= k < t.Length ==> t[k] == old(t[k])
    {
      t[x] := t[x] ^ u[x];
    }
  }

  /** ceil(n / d) */
  function CeilDiv(n: nat, d: nat): nat
    requires d > 0
  {
    (n + d - 1) / d
  }

  lemma CeilDivCovers(n: nat, d: nat)
    requires d > 0
    ensures n <= CeilDiv(n, d) * d < n + d
  {
  }

  /** Where block b starts. */
  function Start(b: nat, d: nat): nat {
    if b == 0 then 0 else Start(b - 1, d) + d
  }

  lemma {:induction false} StartIsProduct(b: nat, d: nat)
    ensures Start(b, d) == b * d
  {
    if b > 0 {
      StartIsProduct(b - 1, d);
      assert b * d == (b - 1) * d + d;
    }
  }

  /** Octet k of n blocks of length d is octet r of block b, which starts at lo. */
  lemma Split(k: nat, n: nat, d: nat) returns (b: nat, r: nat, lo: nat)
    requires d > 0 && k < Start(n, d)
    ensures b == k / d && r == k % d && lo == Start(b, d) && k == lo + r && b < n && r < d
  {
    Quotient(k, d);
    b, r := k / d, k % d;
    StartIsProduct(n, d);
    StartIsProduct(b, d);
    lo := Start(b, d);
    if b >= n {
      Monotone(n, b, d);
    }
  }

  lemma Quotient(k: nat, d: nat)
    requires d > 0
    ensures 0 <= k / d && k == k / d * d + k % d && 0 <= k % d < d
  {
  }

  /** T_(b+1) stands at lo. */
  ghost predicate BlockAt(prf: Prf, p: Octets, s: Octets, c: nat, dk: Octets, lo: nat, b: nat)
    requires FixedLength(prf) && c >= 1
  {
    lo + prf.size <= |dk| && dk[lo..lo + prf.size] == F(prf, p, s, c, BlockIndex(b + 1))
  }

  ghost predicate HasBlock(prf: Prf, p: Octets, s: Octets, c: nat, dk: Octets, b: nat)
    requires FixedLength(prf) && c >= 1
  {
    BlockAt(prf, p, s, c, dk, Start(b, prf.size), b)
  }

  lemma BlocksCover(n: nat, d: nat)
    requires d > 0
    ensures n <= Start(CeilDiv(n, d), d)
  {
    CeilDivCovers(n, d);
    StartIsProduct(CeilDiv(n, d), d);
  }

  lemma BlocksMakeTheKey(prf: Prf, p: Octets, s: Octets, c: nat, dk: Octets, blocks: nat, keyLen: nat)
    requires FixedLength(prf) && c >= 1
    requires blocks == CeilDiv(keyLen, prf.size) && blocks < 0x1_0000_0000 && |dk| == Start(blocks, prf.size)
    requires forall b: nat :: b < blocks ==> HasBlock(prf, p, s, c, dk, b)
    ensures keyLen <= |dk| && IsDerivedKey(prf, p, s, c, dk[..keyLen])
  {
    BlocksCover(keyLen, prf.size);
    forall k, enc: Octets | 0 <= k < keyLen && IsInt(enc, k / prf.size + 1)
      ensures dk[..keyLen][k] == F(prf, p, s, c, enc)[k % prf.size]
    {
      OctetOfKey(prf, p, s, c, dk, blocks, k, enc);
    }
  }

  lemma OctetOfKey(prf: Prf, p: Octets, s: Octets, c: nat, dk: Octets, blocks: nat, k: nat, enc: Octets)
    requires FixedLength(prf) && c >= 1 && blocks < 0x1_0000_0000 && k < |dk| == Start(blocks, prf.size)
    requires forall b: nat :: b < blocks ==> HasBlock(prf, p, s, c, dk, b)
    requires IsInt(enc, k / prf.size + 1)
    ensures dk[k] == F(prf, p, s, c, enc)[k % prf.size]
  {
    var b, r, lo := Split(k, blocks, prf.size);
    assert HasBlock(prf, p, s, c, dk, b);
    KeyOctet(prf, p, s, c, dk, lo, b, r, enc);
  }

  lemma KeyOctet(prf: Prf, p: Octets, s: Octets, c: nat, dk: Octets, lo: nat, b: nat, r: nat, enc: Octets)
    requires FixedLength(prf) && c >= 1 && BlockAt(prf, p, s, c, dk, lo, b)
    requires b + 1 < 0x1_0000_0000 && IsInt(enc, b + 1) && r < prf.size
    ensures lo + r < |dk| && dk[lo + r] == F(prf, p, s, c, enc)[r]
  {
    BlockIndexIsInt(b + 1);
    IntIsUnique(enc, BlockIndex(b + 1));
  }

  /** pbkdf2Key. For every password, salt, iteration count and key length below 2^32 - 1 blocks it returns
      the key section 5.2 of RFC 8018 defines; an iteration count below one counts as one. */
  method Pbkdf2Key(h: Prf, password: Octets, salt: Octets, iter: int, keyLen: nat) returns (dk: Octets)
    requires FixedLength(h)
    ensures |dk| == keyLen
    ensures CeilDiv(keyLen, h.size) < 0x1_0000_0000 ==>
              IsDerivedKey(h, password, salt, if iter < 1 then 1 else iter, dk)
  {
    var prf := new Hmac(h, password);
    var numBlocks := (keyLen + h.size - 1) / h.size;
    ghost var c := if iter < 1 then 1 else iter;
    dk := [];
    var u := new byte[h.size];
    var t := new byte[h.size];
    for i := 1 to numBlocks + 1
      invariant prf.prf == h && prf.password == password
      invariant |dk| == Start(i - 1, h.size)
      invariant forall b: nat :: b < i - 1 ==> HasBlock(h, password, salt, c, dk, b)
    {
      Block(prf, salt, iter, i, u, t);
      ghost var before := dk;
      dk := dk + t[..];
      BlocksGrow(h, password, salt, c, before, t[..], i - 1);
    }
    CeilDivCovers(keyLen, h.size);
    StartIsProduct(numBlocks, h.size);
    if numBlocks < 0x1_0000_0000 {
      BlocksMakeTheKey(h, password, salt, c, dk, numBlocks, keyLen);
    }
    dk := dk[..keyLen];
  }

  lemma BlocksGrow(prf: Prf, p: Octets, s: Octets, c: nat, dk: Octets, t: Octets, n: nat)
    requires FixedLength(prf) && c >= 1 && |dk| == Start(n, prf.size)
    requires forall b: nat :: b < n ==> HasBlock(prf, p, s, c, dk, b)
    requires t == F(prf, p, s, c, BlockIndex(n + 1))
    ensures |dk + t| == Start(n + 1, prf.size)
    ensures forall b: nat :: b < n + 1 ==> HasBlock(prf, p, s, c, dk + t, b)
  {
    forall b: nat | b < n + 1 ensures HasBlock(prf, p, s, c, dk + t, b) {
      if b < n {
        assert HasBlock(prf, p, s, c, dk, b);
        BlockStays(prf, p, s, c, dk, t, Start(b, prf.size), b);
      } else {
        assert (dk + t)[|dk|..|dk| + prf.size] == t;
      }
    }
  }

  lemma BlockStays(prf: Prf, p: Octets, s: Octets, c: nat, dk: Octets, t: Octets, lo: nat, b: nat)
    requires FixedLength(prf) && c >= 1 && BlockAt(prf, p, s, c, dk, lo, b)
    ensures BlockAt(prf, p, s, c, dk + t, lo, b)
  {
    assert (dk + t)[lo..lo + prf.size] == dk[lo..lo + prf.size];
  }

  /** The definition leaves no choice, so the derived key is the one every other implementation gets. */
  lemma DerivedKeyIsUnique(prf: Prf, p: Octets, s: Octets, c: nat, dk: Octets, dk': Octets)
    requires FixedLength(prf) && c >= 1 && |dk| == |dk'| && CeilDiv(|dk|, prf.size) < 0x1_0000_0000
    requires IsDerivedKey(prf, p, s, c, dk) && IsDerivedKey(prf, p, s, c, dk')
    ensures dk == dk'
  {
    CeilDivCovers(|dk|, prf.size);
    forall k | 0 <= k < |dk| ensures dk[k] == dk'[k] {
      CeilDivCovers(|dk|, prf.size);
      StartIsProduct(CeilDiv(|dk|, prf.size), prf.size);
      var b, _, _ := Split(k, CeilDiv(|dk|, prf.size), prf.size);
      BlockIndexIsInt(b + 1);
      var enc := BlockIndex(b + 1);
      assert IsInt(enc, k / prf.size + 1);
      assert dk[k] == F(prf, p, s, c, enc)[k % prf.size];
    }
  }
}
