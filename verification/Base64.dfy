/** Base64, section 4 of RFC 4648: the browser encodes the wrapped key chunk by chunk (portal/lib/encrypt.ts),
    the cloud and the printer decode it with Go's standard decoder. */
module Base64 {
  import opened Wrappers
  import opened Bytes

  /** Six bits. */
  type Sextet = bv8

  predicate Special(c: char) {
    c == '=' || c == '\r' || c == '\n'
  }

  /** The alphabet of table 1 of RFC 4648. */
  function Letter(s: Sextet): (c: char)
    requires s < 64
    ensures !Special(c)
  {
    var n := s as int;
    if n < 26 then ('A' as int + n) as char
    else if n < 52 then ('a' as int + n - 26) as char
    else if n < 62 then ('0' as int + n - 52) as char
    else if n == 62 then '+'
    else '/'
  }

  /** The position of a letter in the alphabet, or -1. */
  function Position(c: char): (n: int)
    ensures n < 64
  {
    if 'A' <= c <= 'Z' then c as int - 'A' as int
    else if 'a' <= c <= 'z' then c as int - 'a' as int + 26
    else if '0' <= c <= '9' then c as int - '0' as int + 52
    else if c == '+' then 62
    else if c == '/' then 63
    else -1
  }

  function SextetOf(c: char): (s: Option<Sextet>)
    ensures s.Some? ==> s.value < 64
  {
    if Position(c) < 0 then None else Some(Position(c) as bv8)
  }

  lemma LetterIsReadBack(s: Sextet)
    requires s < 64
    ensures SextetOf(Letter(s)) == Some(s)
  {
  }

  /** Table 1 of RFC 4648, in character codes: 65 is "A", 97 is "a", 48 is "0", 43 is "+", 47 is "/". */
  lemma LetterIsStandard(s: Sextet)
    requires s < 64
    ensures var n, code := s as int, Letter(s) as int;
      code == (if n <= 25 then 65 + n else if n <= 51 then 97 + (n - 26) else if n <= 61 then 48 + (n - 52)
               else if n == 62 then 43 else 47)
  {
  }

  // ----- encoding -----

  function First(b0: byte): (s: Sextet) ensures s < 64 { b0 >> 2 }

  function Second(b0: byte, b1: byte): (s: Sextet) ensures s < 64 { ((b0 & 3) << 4) | (b1 >> 4) }

  function Third(b1: byte, b2: byte): (s: Sextet) ensures s < 64 { ((b1 & 15) << 2) | (b2 >> 6) }

  function Fourth(b2: byte): (s: Sextet) ensures s < 64 { b2 & 63 }

  /** Three octets as four letters; a shorter last group is filled with zero bits and padded with "=". */
  function Group(b: Octets): string
    requires 1 <= |b| <= 3
  {
    var b1: byte := if |b| > 1 then b[1] else 0;
    var b2: byte := if |b| > 2 then b[2] else 0;
    [Letter(First(b[0])), Letter(Second(b[0], b1)),
     if |b| > 1 then Letter(Third(b1, b2)) else '=',
     if |b| > 2 then Letter(Fourth(b2)) else '=']
  }

  function Encode(b: Octets): string {
    if b == [] then "" else if |b| < 3 then Group(b) else Group(b[..3]) + Encode(b[3..])
  }

  // ----- decoding -----

  function StripNewlines(s: string): string {
    if s == "" then ""
    else if s[0] == '\r' || s[0] == '\n' then StripNewlines(s[1..])
    else [s[0]] + StripNewlines(s[1..])
  }

  function Octet0(s0: Sextet, s1: Sextet): byte { (s0 << 2) | (s1 >> 4) }

  function Octet1(s1: Sextet, s2: Sextet): byte { ((s1 & 15) << 4) | (s2 >> 2) }

  function Octet2(s2: Sextet, s3: Sextet): byte { ((s2 & 3) << 6) | s3 }

  /** Four letters at a time; "=" only at the very end. Left-over bits of a padded group are not looked at. */
  function DecodeQuads(s: string): Option<Octets> {
    if s == "" then Some([])
    else if |s| < 4 then None
    else
      var s0, s1, s2, s3 := SextetOf(s[0]), SextetOf(s[1]), SextetOf(s[2]), SextetOf(s[3]);
      if s0.None? || s1.None? then None
      else if s[2] == '=' then
        if s[3] == '=' && |s| == 4 then Some([Octet0(s0.value, s1.value)]) else None
      else if s2.None? then None
      else if s[3] == '=' then
        if |s| == 4 then Some([Octet0(s0.value, s1.value), Octet1(s1.value, s2.value)]) else None
      else if s3.None? then None
      else
        var rest := DecodeQuads(s[4..]);
        if rest.None? then None
        else Some([Octet0(s0.value, s1.value), Octet1(s1.value, s2.value), Octet2(s2.value, s3.value)] + rest.value)
  }

  /** base64.StdEncoding.DecodeString */
  function Decode(s: string): Option<Octets> {
    DecodeQuads(StripNewlines(s))
  }

  // ----- round trip -----

  lemma SextetsSpellTheOctets(b0: byte, b1: byte, b2: byte)
    ensures Octet0(First(b0), Second(b0, b1)) == b0
    ensures Octet1(Second(b0, b1), Third(b1, b2)) == b1
    ensures Octet2(Third(b1, b2), Fourth(b2)) == b2
  {
  }

  lemma FullQuad(s0: Sextet, s1: Sextet, s2: Sextet, s3: Sextet, more: string)
    requires s0 < 64 && s1 < 64 && s2 < 64 && s3 < 64 && DecodeQuads(more).Some?
    ensures DecodeQuads([Letter(s0), Letter(s1), Letter(s2), Letter(s3)] + more) ==
              Some([Octet0(s0, s1), Octet1(s1, s2), Octet2(s2, s3)] + DecodeQuads(more).value)
  {
    LetterIsReadBack(s0);
    LetterIsReadBack(s1);
    LetterIsReadBack(s2);
    LetterIsReadBack(s3);
    assert ([Letter(s0), Letter(s1), Letter(s2), Letter(s3)] + more)[4..] == more;
  }

  lemma PaddedQuads(s0: Sextet, s1: Sextet, s2: Sextet)
    requires s0 < 64 && s1 < 64 && s2 < 64
    ensures DecodeQuads([Letter(s0), Letter(s1), '=', '=']) == Some([Octet0(s0, s1)])
    ensures DecodeQuads([Letter(s0), Letter(s1), Letter(s2), '=']) == Some([Octet0(s0, s1), Octet1(s1, s2)])
  {
    LetterIsReadBack(s0);
    LetterIsReadBack(s1);
    LetterIsReadBack(s2);
  }

  lemma ShortGroupDecodes(b: Octets)
    requires 1 <= |b| <= 2
    ensures DecodeQuads(Group(b)) == Some(b)
  {
    var b1: byte := if |b| > 1 then b[1] else 0;
    SextetsSpellTheOctets(b[0], b1, 0);
    PaddedQuads(First(b[0]), Second(b[0], b1), Third(b1, 0));
    assert |b| == 1 ==> b == [b[0]];
    assert |b| == 2 ==> b == [b[0], b[1]];
  }

  lemma GroupDecodes(b: Octets, more: string)
    requires |b| == 3 && DecodeQuads(more).Some?
    ensures DecodeQuads(Group(b) + more) == Some(b + DecodeQuads(more).value)
  {
    SextetsSpellTheOctets(b[0], b[1], b[2]);
    FullQuad(First(b[0]), Second(b[0], b[1]), Third(b[1], b[2]), Fourth(b[2]), more);
    assert b == [b[0], b[1], b[2]];
  }

  lemma GroupHasNoNewlines(b: Octets)
    requires 1 <= |b| <= 3
    ensures forall i :: 0 <= i < 4 ==> Group(b)[i] != '\r' && Group(b)[i] != '\n'
  {
  }

  lemma {:induction false} StripKeeps(s: string, more: string)
    requires forall i :: 0 <= i < |s| ==> s[i] != '\r' && s[i] != '\n'
    ensures StripNewlines(s + more) == s + StripNewlines(more)
  {
    if s == "" {
      assert s + more == more;
    } else {
      assert (s + more)[0] == s[0] && (s + more)[1..] == s[1..] + more;
      StripKeeps(s[1..], more);
    }
  }

  lemma {:induction false} OnlyLetters(b: Octets)
    ensures forall i :: 0 <= i < |Encode(b)| ==> Encode(b)[i] != '\r' && Encode(b)[i] != '\n'
  {
    if b != [] {
      GroupHasNoNewlines(if |b| < 3 then b else b[..3]);
      if |b| >= 3 {
        OnlyLetters(b[3..]);
      }
    }
  }

  lemma {:induction false} DecodeQuadsEncode(b: Octets)
    ensures DecodeQuads(Encode(b)) == Some(b)
  {
    if b != [] {
      if |b| < 3 {
        ShortGroupDecodes(b);
      } else {
        DecodeQuadsEncode(b[3..]);
        GroupDecodes(b[..3], Encode(b[3..]));
        assert b == b[..3] + b[3..];
      }
    }
  }

  /** Decoding what was encoded gives back the octets, for every octet string. */
  lemma DecodeEncode(b: Octets)
    ensures Decode(Encode(b)) == Some(b)
  {
    OnlyLetters(b);
    StripKeeps(Encode(b), "");
    assert Encode(b) + "" == Encode(b);
    DecodeQuadsEncode(b);
  }

  /** The four sextets are the digits, in base 64, of the number whose digits in base 256 are the three
      octets: first bits first, as the RFC numbers them. */
  lemma SameNumber(b0: byte, b1: byte, b2: byte)
    ensures ((First(b0) as bv32) << 18) + ((Second(b0, b1) as bv32) << 12) + ((Third(b1, b2) as bv32) << 6)
            + Fourth(b2) as bv32
         == ((b0 as bv32) << 16) + ((b1 as bv32) << 8) + b2 as bv32
  {
  }

  /** Vectors of section 10 of RFC 4648: "f", "fo" and "foo" are Zg==, Zm8= and Zm9v. */
  lemma RfcVectors()
    ensures Encode([]) == "" && Encode([0x66]) == "Zg==" && Encode([0x66, 0x6f]) == "Zm8="
    ensures Encode([0x66, 0x6f, 0x6f]) == "Zm9v"
  {
    assert [0x66, 0x6f, 0x6f][..3] == [0x66, 0x6f, 0x6f] && Encode([0x66, 0x6f, 0x6f][3..]) == "";
  }

  /** Groups of four letters, of which the last may end in one or two "=" (character 61). */
  predicate WellFormed(t: string) {
    && |t| % 4 == 0
    && (forall i :: 0 <= i < |t| - 2 ==> IsLetter(t[i]))
    && (t == "" || (IsLetter(t[|t| - 2]) && IsLetter(t[|t| - 1]))
        || (IsLetter(t[|t| - 2]) && t[|t| - 1] as int == 61) || (t[|t| - 2] as int == 61 && t[|t| - 1] as int == 61))
  }

  predicate IsLetter(c: char) {
    var n := c as int;
    65 <= n <= 90 || 97 <= n <= 122 || 48 <= n <= 57 || n == 43 || n == 47
  }

  lemma LettersAreRead(c: char)
    ensures SextetOf(c).Some? <==> IsLetter(c)
  {
  }

  /** Nothing else is accepted, line ends aside. */
  lemma OnlyBase64IsDecoded(s: string)
    requires Decode(s).Some?
    ensures WellFormed(StripNewlines(s))
  {
    OnlyQuadsAreDecoded(StripNewlines(s));
  }

  lemma FirstQuad(t: string)
    requires DecodeQuads(t).Some? && t != ""
    ensures |t| >= 4 && IsLetter(t[0]) && IsLetter(t[1])
    ensures |t| > 4 ==> IsLetter(t[2]) && IsLetter(t[3]) && DecodeQuads(t[4..]).Some?
    ensures |t| == 4 ==> (IsLetter(t[2]) && IsLetter(t[3])) || (IsLetter(t[2]) && t[3] as int == 61)
                         || (t[2] as int == 61 && t[3] as int == 61)
  {
    LettersAreRead(t[0]);
    LettersAreRead(t[1]);
    LettersAreRead(t[2]);
    LettersAreRead(t[3]);
  }

  lemma {:induction false} OnlyQuadsAreDecoded(t: string)
    requires DecodeQuads(t).Some?
    ensures WellFormed(t)
  {
    if t != "" {
      FirstQuad(t);
      if |t| > 4 {
        OnlyQuadsAreDecoded(t[4..]);
        WellFormedGrows(t);
      }
    }
  }

  lemma WellFormedGrows(t: string)
    requires |t| > 4 && WellFormed(t[4..]) && IsLetter(t[0]) && IsLetter(t[1]) && IsLetter(t[2]) && IsLetter(t[3])
    ensures WellFormed(t)
  {
    assert forall i :: 4 <= i < |t| ==> t[i] == t[4..][i - 4];
  }

  /** Line ends are skipped wherever they stand. */
  lemma {:induction false} NewlinesAreSkipped(a: string, c: char, b: string)
    requires c as int == 13 || c as int == 10
    ensures Decode(a + [c] + b) == Decode(a + b)
  {
    NewlineIsStripped(a, c, b);
  }

  lemma {:induction false} NewlineIsStripped(a: string, c: char, b: string)
    requires c as int == 13 || c as int == 10
    ensures StripNewlines(a + [c] + b) == StripNewlines(a + b)
  {
    if a == "" {
      assert a + [c] + b == [c] + b && ([c] + b)[1..] == b && a + b == b;
    } else {
      assert (a + [c] + b)[0] == (a + b)[0] == a[0];
      assert (a + [c] + b)[1..] == a[1..] + [c] + b && (a + b)[1..] == a[1..] + b;
      NewlineIsStripped(a[1..], c, b);
    }
  }

  /** Decode, encode, decode: whatever form of a key the cloud accepts, it hands on the same octets. */
  lemma ReencodingKeepsTheOctets(s: string)
    requires Decode(s).Some?
    ensures Decode(Encode(Decode(s).value)) == Decode(s)
  {
    DecodeEncode(Decode(s).value);
  }

  // ----- the browser's encoder -----

  const CHUNK: nat := 0x8000

  /** String.fromCharCode(...octets) */
  function FromCharCodes(b: Octets): (s: string)
    ensures |s| == |b| && forall i :: 0 <= i < |s| ==> s[i] as int < 256
  {
    seq(|b|, i requires 0 <= i < |b| => (b[i] as int) as char)
  }

  function CharCodes(s: string): Octets
    requires forall i :: 0 <= i < |s| ==> s[i] as int < 256
  {
    seq(|s|, i requires 0 <= i < |s| => ByteOf(s[i] as int))
  }

  lemma CharCodesBack(b: Octets)
    ensures CharCodes(FromCharCodes(b)) == b
  {
  }

  /** btoa: the base64 form of a string of characters below 256. */
  function Btoa(s: string): string
    requires forall i :: 0 <= i < |s| ==> s[i] as int < 256
  {
    Encode(CharCodes(s))
  }

  /** bufferToBase64: the string for btoa is put together in chunks, and the result is the one-shot
      encoding of the whole buffer, whatever its length. */
  method BufferToBase64(bytes: Octets) returns (s: string)
    ensures s == Encode(bytes)
    ensures Decode(s) == Some(bytes)
  {
    var binary := "";
    var i := 0;
    while i < |bytes|
      invariant binary == FromCharCodes(bytes[..if i < |bytes| then i else |bytes|])
      decreases |bytes| - i
    {
      var end := if i + CHUNK < |bytes| then i + CHUNK else |bytes|;
      binary := binary + FromCharCodes(bytes[i..end]);
      i := i + CHUNK;
    }
    assert bytes[..|bytes|] == bytes;
    CharCodesBack(bytes);
    DecodeEncode(bytes);
    s := Btoa(binary);
  }
}
