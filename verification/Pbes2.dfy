/** Decryption of the printer's private key file (printer/crypto.go, decryptPBES2 from the derived key on,
    and pkcs7Unpad): section 6.2.2 of RFC 8018, with the padding of section 6.3 of RFC 5652. */
module Pbes2 {
  import opened Wrappers
  import opened Bytes
  import opened Division
  import opened Pbkdf2

  // ----- section 6.3 of RFC 5652 -----

  /** k - (lth mod k) octets, each of that value. */
  function Padding(lth: nat, k: nat): Octets
    requires 1 <= k <= 255
  {
    seq(k - lth % k, i => ByteOf(k - lth % k))
  }

  function Pad(m: Octets, k: nat): (b: Octets)
    requires 1 <= k <= 255
  {
    m + Padding(|m|, k)
  }

  lemma NextMultiple(n: nat, k: nat)
    requires k > 0
    ensures (n + (k - n % k)) % k == 0 && 0 < k - n % k <= k
  {
    var q := n / k;
    assert n == q * k + n % k;
    assert (q + 1) * k == q * k + k;
    Unique(n + (k - n % k), k, q + 1, 0);
  }

  lemma PadFillsBlocks(m: Octets, k: nat)
    requires 1 <= k <= 255
    ensures |Pad(m, k)| % k == 0 && |m| < |Pad(m, k)| <= |m| + k && m <= Pad(m, k)
  {
    NextMultiple(|m|, k);
    assert |Padding(|m|, k)| == k - |m| % k;
  }

  /** Whole blocks that end in v octets of value v, v between 1 and k, are a padded message. */
  lemma TailIsPadding(b: Octets, k: nat, v: nat)
    requires 1 <= k <= 255 && |b| % k == 0 && 1 <= v <= k && v <= |b|
    requires forall i :: |b| - v <= i < |b| ==> b[i] as int == v
    ensures b == Pad(b[..|b| - v], k)
  {
    var m := b[..|b| - v];
    Remainder(|b|, k, v);
    assert |Padding(|m|, k)| == v;
    forall i | |b| - v <= i < |b| ensures b[i] == ByteOf(v) {
      SameValue(b[i], ByteOf(v));
    }
  }

  lemma Remainder(n: nat, k: nat, v: nat)
    requires 1 <= v <= k && v <= n && n % k == 0
    ensures k - (n - v) % k == v
  {
    var q := n / k;
    assert n == q * k && (q - 1) * k == q * k - k;
    Unique(n - v, k, q - 1, k - v);
  }

  lemma LastOctets(m: Octets, k: nat)
    requires 1 <= k <= 255
    ensures var b := Pad(m, k); forall i :: |m| <= i < |b| ==> b[i] as int == |b| - |m|
  {
  }

  lemma PadIsInjective(m: Octets, m': Octets, k: nat)
    requires 1 <= k <= 255 && Pad(m, k) == Pad(m', k)
    ensures m == m'
  {
    var b := Pad(m, k);
    PadFillsBlocks(m, k);
    PadFillsBlocks(m', k);
    LastOctets(m, k);
    LastOctets(m', k);
    assert |b| - |m| == b[|b| - 1] as int == |b| - |m'|;
    assert m == b[..|m|] && m' == b[..|m'|];
  }

  ghost predicate IsPadded(b: Octets, k: nat)
    requires 1 <= k <= 255
  {
    exists m: Octets :: b == Pad(m, k)
  }

  /** What every padded message looks like at its end. */
  lemma PaddedTail(b: Octets, k: nat)
    requires 1 <= k <= 255 && IsPadded(b, k)
    ensures b != [] && |b| % k == 0 && 1 <= b[|b| - 1] as int <= k && b[|b| - 1] as int <= |b|
    ensures forall i :: |b| - b[|b| - 1] as int <= i < |b| ==> b[i] == b[|b| - 1]
  {
    var m: Octets :| b == Pad(m, k);
    PadFillsBlocks(m, k);
    LastOctets(m, k);
  }

  /** pkcs7Unpad: it returns m exactly on Pad(m), and an error on everything that is no padded message. */
  method Pkcs7Unpad(b: Octets, blockSize: nat) returns (r: Result<Octets>)
    requires 1 <= blockSize <= 255
    ensures r.Success? ==> b == Pad(r.value, blockSize)
    ensures r.Failure? ==> forall m: Octets :: b != Pad(m, blockSize)
  {
    if IsPadded(b, blockSize) {
      PaddedTail(b, blockSize);
    }
    var n := |b|;
    if n == 0 || n % blockSize != 0 {
      return Failure("pkcs7: data is not a whole number of blocks");
    }
    var pad := b[n - 1] as int;
    if pad == 0 || pad > blockSize || pad > n {
      return Failure("pkcs7: invalid padding length");
    }
    for i := n - pad to n
      invariant forall j :: n - pad <= j < i ==> b[j] as int == pad
    {
      if b[i] as int != pad {
        return Failure("pkcs7: inconsistent padding bytes");
      }
    }
    TailIsPadding(b, blockSize, pad);
    return Success(b[..n - pad]);
  }

  // ----- CBC over any block permutation -----

  const BLOCK_SIZE: nat := 16

  /** AES under one key. */
  datatype BlockCipher = BlockCipher(enc: Octets -> Octets, dec: Octets -> Octets)

  predicate Inverts(c: BlockCipher, b: Octets) {
    |c.enc(b)| == BLOCK_SIZE && |c.dec(b)| == BLOCK_SIZE && c.dec(c.enc(b)) == b && c.enc(c.dec(b)) == b
  }

  ghost predicate Permutation(c: BlockCipher) {
    forall b: Octets :: |b| == BLOCK_SIZE ==> Inverts(c, b)
  }

  predicate WholeBlocks(s: Octets) {
    |s| % BLOCK_SIZE == 0
  }

  ghost function EncBlock(c: BlockCipher, b: Octets): (x: Octets)
    requires Permutation(c) && |b| == BLOCK_SIZE
    ensures |x| == BLOCK_SIZE
  {
    assert Inverts(c, b);
    c.enc(b)
  }

  function DecBlock(c: BlockCipher, x: Octets): (b: Octets)
    requires Permutation(c) && |x| == BLOCK_SIZE
    ensures |b| == BLOCK_SIZE
  {
    assert Inverts(c, x);
    c.dec(x)
  }

  lemma BlocksInvert(c: BlockCipher, b: Octets)
    requires Permutation(c) && |b| == BLOCK_SIZE
    ensures DecBlock(c, EncBlock(c, b)) == b && EncBlock(c, DecBlock(c, b)) == b
  {
    assert Inverts(c, b);
  }

  ghost function CbcEncrypt(c: BlockCipher, iv: Octets, m: Octets): (ct: Octets)
    requires Permutation(c) && |iv| == BLOCK_SIZE && WholeBlocks(m)
    ensures |ct| == |m|
    decreases |m|
  {
    if m == [] then [] else
      var x := EncBlock(c, Xor(m[..BLOCK_SIZE], iv));
      x + CbcEncrypt(c, x, m[BLOCK_SIZE..])
  }

  ghost function CbcDecrypt(c: BlockCipher, iv: Octets, ct: Octets): (m: Octets)
    requires Permutation(c) && |iv| == BLOCK_SIZE && WholeBlocks(ct)
    ensures |m| == |ct|
    decreases |ct|
  {
    if ct == [] then [] else
      Xor(DecBlock(c, ct[..BLOCK_SIZE]), iv) + CbcDecrypt(c, ct[..BLOCK_SIZE], ct[BLOCK_SIZE..])
  }

  lemma DecryptOneMore(c: BlockCipher, iv: Octets, x: Octets, rest: Octets)
    requires Permutation(c) && |iv| == |x| == BLOCK_SIZE && WholeBlocks(rest)
    ensures WholeBlocks(x + rest)
    ensures CbcDecrypt(c, iv, x + rest) == Xor(DecBlock(c, x), iv) + CbcDecrypt(c, x, rest)
  {
    assert (x + rest)[..BLOCK_SIZE] == x && (x + rest)[BLOCK_SIZE..] == rest;
  }

  lemma EncryptOneMore(c: BlockCipher, iv: Octets, p: Octets, rest: Octets)
    requires Permutation(c) && |iv| == |p| == BLOCK_SIZE && WholeBlocks(rest)
    ensures WholeBlocks(p + rest)
    ensures var x := EncBlock(c, Xor(p, iv)); CbcEncrypt(c, iv, p + rest) == x + CbcEncrypt(c, x, rest)
  {
    assert (p + rest)[..BLOCK_SIZE] == p && (p + rest)[BLOCK_SIZE..] == rest;
  }

  lemma {:induction false} CbcDecryptsEncrypted(c: BlockCipher, iv: Octets, m: Octets)
    requires Permutation(c) && |iv| == BLOCK_SIZE && WholeBlocks(m)
    ensures CbcDecrypt(c, iv, CbcEncrypt(c, iv, m)) == m
    decreases |m|
  {
    if m != [] {
      var p := m[..BLOCK_SIZE];
      var x := EncBlock(c, Xor(p, iv));
      DecryptOneMore(c, iv, x, CbcEncrypt(c, x, m[BLOCK_SIZE..]));
      BlocksInvert(c, Xor(p, iv));
      XorCancels(p, iv);
      CbcDecryptsEncrypted(c, x, m[BLOCK_SIZE..]);
    }
  }

  lemma {:induction false} CbcEncryptsDecrypted(c: BlockCipher, iv: Octets, ct: Octets)
    requires Permutation(c) && |iv| == BLOCK_SIZE && WholeBlocks(ct)
    ensures CbcEncrypt(c, iv, CbcDecrypt(c, iv, ct)) == ct
    decreases |ct|
  {
    if ct != [] {
      var x := ct[..BLOCK_SIZE];
      EncryptOneMore(c, iv, Xor(DecBlock(c, x), iv), CbcDecrypt(c, x, ct[BLOCK_SIZE..]));
      BlocksInvert(c, x);
      XorCancels(DecBlock(c, x), iv);
      CbcEncryptsDecrypted(c, x, ct[BLOCK_SIZE..]);
    }
  }

  /** Block i of an octet string. */
  function BlockOf(s: Octets, i: nat): Octets
    requires (i + 1) * BLOCK_SIZE <= |s|
  {
    s[i * BLOCK_SIZE..(i + 1) * BLOCK_SIZE]
  }

  /** CBC, block by block: each is encrypted after an exclusive or with the ciphertext block before it, the first
      with the initialisation vector. */
  lemma {:induction false} CbcChains(c: BlockCipher, iv: Octets, m: Octets, i: nat)
    requires Permutation(c) && |iv| == BLOCK_SIZE && WholeBlocks(m) && (i + 1) * BLOCK_SIZE <= |m|
    ensures var ct := CbcEncrypt(c, iv, m);
      BlockOf(ct, i) == c.enc(Xor(BlockOf(m, i), if i == 0 then iv else BlockOf(ct, i - 1)))
    decreases i
  {
    assert BLOCK_SIZE == 16;
    var p, rest := m[..BLOCK_SIZE], m[BLOCK_SIZE..];
    assert m == p + rest && WholeBlocks(rest);
    var x := EncBlock(c, Xor(p, iv));
    EncryptOneMore(c, iv, p, rest);
    if i == 0 {
      assert Inverts(c, Xor(p, iv));
      FirstBlockOf(p, rest);
      FirstBlockOf(x, CbcEncrypt(c, x, rest));
    } else {
      CbcChains(c, x, rest, i - 1);
      ChainShifts(c, p, rest, x, CbcEncrypt(c, x, rest), i);
    }
  }

  lemma ChainShifts(c: BlockCipher, p: Octets, rest: Octets, x: Octets, ct: Octets, i: nat)
    requires |p| == |x| == BLOCK_SIZE && |ct| == |rest| && i > 0 && i * BLOCK_SIZE <= |rest|
    requires Permutation(c)
    requires BlockOf(ct, i - 1) == c.enc(Xor(BlockOf(rest, i - 1), if i == 1 then x else BlockOf(ct, i - 2)))
    ensures (i + 1) * BLOCK_SIZE <= |p + rest|
    ensures BlockOf(x + ct, i) == c.enc(Xor(BlockOf(p + rest, i), BlockOf(x + ct, i - 1)))
  {
    LaterBlockOf(p, rest, i);
    LaterBlockOf(x, ct, i);
    if i == 1 {
      FirstBlockOf(x, ct);
    } else {
      LaterBlockOf(x, ct, i - 1);
    }
  }

  lemma FirstBlockOf(x: Octets, rest: Octets)
    requires |x| == BLOCK_SIZE
    ensures BLOCK_SIZE <= |x + rest| && BlockOf(x + rest, 0) == x
  {
  }

  lemma LaterBlockOf(x: Octets, rest: Octets, i: nat)
    requires |x| == BLOCK_SIZE && i > 0 && i * BLOCK_SIZE <= |rest|
    ensures (i + 1) * BLOCK_SIZE <= |x + rest| && i - 1 + 1 == i && BlockOf(x + rest, i) == BlockOf(rest, i - 1)
  {
  }

  /** CryptBlocks of a CBC decrypter: block by block into plain. */
  method CryptBlocks(c: BlockCipher, iv: Octets, plain: array<byte>, ct: Octets)
    requires Permutation(c) && |iv| == BLOCK_SIZE && WholeBlocks(ct) && plain.Length == |ct|
    modifies plain
    ensures plain[..] == CbcDecrypt(c, iv, ct)
  {
    var prev, at, rest := iv, 0, ct;
    ghost var done: Octets := [];
    while rest != []
      invariant at + |rest| == |ct| && WholeBlocks(rest) && |prev| == BLOCK_SIZE
      invariant plain[..at] == done && Continues(c, prev, rest, done, CbcDecrypt(c, iv, ct))
      decreases |rest|
    {
      DropBlock(rest);
      DecryptStep(c, prev, rest, done, CbcDecrypt(c, iv, ct));
      done := done + Xor(DecBlock(c, rest[..BLOCK_SIZE]), prev);
      CryptBlock(c, prev, plain, at, rest[..BLOCK_SIZE]);
      prev, at, rest := rest[..BLOCK_SIZE], at + BLOCK_SIZE, rest[BLOCK_SIZE..];
    }
    assert plain[..at] == plain[..];
  }

  lemma DropBlock(s: Octets)
    requires WholeBlocks(s) && s != []
    ensures |s| >= BLOCK_SIZE && WholeBlocks(s[BLOCK_SIZE..])
  {
    assert BLOCK_SIZE == 16;
  }

  ghost predicate Continues(c: BlockCipher, prev: Octets, rest: Octets, done: Octets, all: Octets)
    requires Permutation(c) && |prev| == BLOCK_SIZE && WholeBlocks(rest)
  {
    done + CbcDecrypt(c, prev, rest) == all
  }

  lemma DecryptStep(c: BlockCipher, prev: Octets, rest: Octets, done: Octets, all: Octets)
    requires Permutation(c) && |prev| == BLOCK_SIZE && WholeBlocks(rest) && rest != []
    requires Continues(c, prev, rest, done, all)
    ensures var x := Xor(DecBlock(c, rest[..BLOCK_SIZE]), prev);
      Continues(c, rest[..BLOCK_SIZE], rest[BLOCK_SIZE..], done + x, all)
  {
    DropBlock(rest);
    assert rest == rest[..BLOCK_SIZE] + rest[BLOCK_SIZE..];
    DecryptOneMore(c, prev, rest[..BLOCK_SIZE], rest[BLOCK_SIZE..]);
    Regroup(done, Xor(DecBlock(c, rest[..BLOCK_SIZE]), prev), CbcDecrypt(c, rest[..BLOCK_SIZE], rest[BLOCK_SIZE..]));
  }

  lemma Regroup(a: Octets, b: Octets, c: Octets)
    ensures a + (b + c) == a + b + c
  {
  }

  method CryptBlock(c: BlockCipher, prev: Octets, plain: array<byte>, at: nat, x: Octets)
    requires Permutation(c) && |prev| == |x| == BLOCK_SIZE && at + BLOCK_SIZE <= plain.Length
    modifies plain
    ensures plain[..at + BLOCK_SIZE] == old(plain[..at]) + Xor(DecBlock(c, x), prev)
  {
    Put(plain, at, Xor(DecBlock(c, x), prev));
  }

  /** copy(a[at:], x) */
  method Put(a: array<byte>, at: nat, x: Octets)
    requires at + |x| <= a.Length
    modifies a
    ensures a[..at + |x|] == old(a[..at]) + x
    ensures a[at + |x|..] == old(a[at + |x|..])
  {
    for i := 0 to |x|
      invariant a[..at] == old(a[..at]) && a[at..at + i] == x[..i]
      invariant forall k :: at + i <= k < a.Length ==> a[k] == old(a[k])
    {
      a[at + i] := x[i];
    }
  }

  // ----- section 6.2 of RFC 8018 -----

  /** The parameters of an EncryptedPrivateKeyInfo, parsed: aes is the key schedule, which refuses keys of
      the wrong length. */
  datatype Params = Params(
    prf: Prf, salt: Octets, iter: int, keyLen: nat, iv: Octets, aes: Octets -> Option<BlockCipher>)

  ghost predicate Usable(ps: Params) {
    && FixedLength(ps.prf) && CeilDiv(ps.keyLen, ps.prf.size) < 0x1_0000_0000
    && forall key: Octets :: ps.aes(key).Some? ==> Permutation(ps.aes(key).value)
  }

  function Count(ps: Params): nat {
    if ps.iter < 1 then 1 else ps.iter
  }

  /** ct is what the encryption operation of section 6.2.1 makes of m. */
  ghost predicate IsEncryption(ps: Params, password: Octets, m: Octets, ct: Octets)
    requires Usable(ps)
  {
    |ps.iv| == BLOCK_SIZE && exists key: Octets :: KeyFits(ps, password, key) && Encrypts(ps, key, m, ct)
  }

  ghost predicate KeyFits(ps: Params, password: Octets, key: Octets)
    requires Usable(ps)
  {
    |key| == ps.keyLen && IsDerivedKey(ps.prf, password, ps.salt, Count(ps), key) && ps.aes(key).Some?
  }

  ghost predicate Encrypts(ps: Params, key: Octets, m: Octets, ct: Octets)
    requires Usable(ps) && |ps.iv| == BLOCK_SIZE && ps.aes(key).Some?
  {
    WholeBlocks(Pad(m, BLOCK_SIZE)) && ct == CbcEncrypt(ps.aes(key).value, ps.iv, Pad(m, BLOCK_SIZE))
  }

  lemma EncryptsIsDecrypted(ps: Params, key: Octets, m: Octets, ct: Octets)
    requires Usable(ps) && |ps.iv| == BLOCK_SIZE && ps.aes(key).Some?
    ensures Encrypts(ps, key, m, ct) <==>
              ct != [] && WholeBlocks(ct) && CbcDecrypt(ps.aes(key).value, ps.iv, ct) == Pad(m, BLOCK_SIZE)
  {
    PadFillsBlocks(m, BLOCK_SIZE);
    CbcDecryptsEncrypted(ps.aes(key).value, ps.iv, Pad(m, BLOCK_SIZE));
    if WholeBlocks(ct) {
      CbcEncryptsDecrypted(ps.aes(key).value, ps.iv, ct);
    }
  }

  /** decryptPBES2 from the derived key on: CBC, unpad, and wipe what cannot be unpadded. */
  method DecryptWith(ps: Params, key: Octets, ct: Octets) returns (r: Result<Octets>, plain: array<byte>)
    requires Usable(ps) && |ps.iv| == BLOCK_SIZE && ps.aes(key).Some?
    ensures r.Success? ==> Encrypts(ps, key, r.value, ct) && r.value <= plain[..]
    ensures r.Failure? ==> AllZero(plain[..]) && forall m: Octets :: !Encrypts(ps, key, m, ct)
    ensures r.Failure? ==> forall i :: 0 <= i < plain.Length ==> plain[i] == 0
    ensures fresh(plain)
  {
    forall m: Octets ensures Encrypts(ps, key, m, ct) <==>
        ct != [] && WholeBlocks(ct) && CbcDecrypt(ps.aes(key).value, ps.iv, ct) == Pad(m, BLOCK_SIZE) {
      EncryptsIsDecrypted(ps, key, m, ct);
    }
    plain := new byte[0];
    if |ct| == 0 || |ct| % BLOCK_SIZE != 0 {
      return Failure("AES-CBC ciphertext length is not a block multiple"), plain;
    }
    plain := new byte[|ct|];
    CryptBlocks(ps.aes(key).value, ps.iv, plain, ct);
    r := Pkcs7Unpad(plain[..], BLOCK_SIZE);
    if r.Failure? {
      assert forall m: Octets :: plain[..] != Pad(m, BLOCK_SIZE);
      ZeroBytes(plain);
    }
  }

  /** decryptPBES2, once the structure is parsed. It returns m exactly if the data is the encryption of m
      under this password. The derived key is wiped on every way out, the plaintext on an error. */
  method DecryptPbes2(ps: Params, passphrase: Octets, ct: Octets)
    returns (r: Result<Octets>, dk: array<byte>, plain: array<byte>)
    requires Usable(ps)
    ensures r.Success? ==> IsEncryption(ps, passphrase, r.value, ct)
    ensures r.Failure? ==> forall m: Octets :: !IsEncryption(ps, passphrase, m, ct)
    ensures forall i :: 0 <= i < dk.Length ==> dk[i] == 0
    ensures r.Failure? ==> forall i :: 0 <= i < plain.Length ==> plain[i] == 0
  {
    plain, dk := new byte[0], new byte[0];
    if |ps.iv| != BLOCK_SIZE {
      return Failure("AES-CBC IV has the wrong length"), dk, plain;
    }
    var key := Pbkdf2Key(ps.prf, passphrase, ps.salt, ps.iter, ps.keyLen);
    OnlyThisKey(ps, passphrase, key);
    dk := new byte[|key|](i requires 0 <= i < |key| => key[i]);
    if ps.aes(key).None? {
      ZeroBytes(dk);
      return Failure("invalid key size"), dk, plain;
    }
    r, plain := DecryptWith(ps, key, ct);
    ZeroBytes(dk);
  }

  /** The password determines the key. */
  lemma OnlyThisKey(ps: Params, password: Octets, key: Octets)
    requires Usable(ps) && |key| == ps.keyLen && IsDerivedKey(ps.prf, password, ps.salt, Count(ps), key)
    ensures forall other: Octets :: KeyFits(ps, password, other) ==> other == key
  {
    forall other: Octets | KeyFits(ps, password, other) ensures other == key {
      DerivedKeyIsUnique(ps.prf, password, ps.salt, Count(ps), key, other);
    }
  }

  /** The encryption operation of section 6.2.1, written out for the key the password derives: it needs an
      initialisation vector of one block and a key the cipher takes, and is CBC on the padded message. */
  lemma EncryptionMeans(ps: Params, password: Octets, key: Octets, m: Octets, ct: Octets)
    requires Usable(ps) && |key| == ps.keyLen
    requires IsDerivedKey(ps.prf, password, ps.salt, if ps.iter < 1 then 1 else ps.iter, key)
    ensures |Pad(m, 16)| % 16 == 0
    ensures IsEncryption(ps, password, m, ct) <==>
              |ps.iv| == 16 && ps.aes(key).Some? && ct == CbcEncrypt(ps.aes(key).value, ps.iv, Pad(m, 16))
  {
    OnlyThisKey(ps, password, key);
    PadFillsBlocks(m, 16);
    if |ps.iv| == 16 && ps.aes(key).Some? && ct == CbcEncrypt(ps.aes(key).value, ps.iv, Pad(m, 16)) {
      assert KeyFits(ps, password, key) && Encrypts(ps, key, m, ct);
    }
  }

  /** So an encrypted key file decrypts to the one message it was made from. */
  lemma EncryptionIsInjective(ps: Params, password: Octets, m: Octets, m': Octets, ct: Octets)
    requires Usable(ps)
    requires IsEncryption(ps, password, m, ct) && IsEncryption(ps, password, m', ct)
    ensures m == m'
  {
    var key: Octets :| KeyFits(ps, password, key) && Encrypts(ps, key, m, ct);
    OnlyThisKey(ps, password, key);
    EncryptsIsDecrypted(ps, key, m, ct);
    EncryptsIsDecrypted(ps, key, m', ct);
    PadIsInjective(m, m', BLOCK_SIZE);
  }
}
