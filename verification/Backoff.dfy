/** The printer's reconnect backoff (printer/wsclient.go), on Go's wrapping 64-bit durations. Durations are
    in nanoseconds. */
module Backoff {
  const SECOND: int := 1_000_000_000
  const TWO_63: int := 0x8000_0000_0000_0000
  const TWO_64: int := 0x1_0000_0000_0000_0000

  /** The int64 with the same low 64 bits. */
  function Wrap(x: int): (r: int)
    ensures -TWO_63 <= r < TWO_63
    ensures -TWO_63 <= x < TWO_63 ==> r == x
  {
    (x + TWO_63) % TWO_64 - TWO_63
  }

  function Pow2(n: nat): nat {
    if n == 0 then 1 else 2 * Pow2(n - 1)
  }

  /** time.Duration(1<<uint(attempt-1)) * time.Second: the shift wraps, and so does the product. */
  function Base(attempt: int): int
    requires attempt >= 1
  {
    Wrap(Wrap(Pow2(attempt - 1)) * SECOND)
  }

  function AtLeastOne(attempt: int): int {
    if attempt < 1 then 1 else attempt
  }

  /** What the code draws its jitter below. */
  function Ceiling(attempt: int, maxBackoff: int): int {
    var base := Base(AtLeastOne(attempt));
    if base > maxBackoff || base <= 0 then maxBackoff else base
  }

  /** What it means to draw it below: 1 s, 2 s, 4 s, ..., capped at maxBackoff. */
  function Ideal(attempt: int, maxBackoff: int): int {
    var exact := Pow2(AtLeastOne(attempt) - 1) * SECOND;
    if exact > maxBackoff then maxBackoff else exact
  }

  /** The i-th ideal ceiling is 2^i seconds, or the maximum if that is less. */
  lemma IdealMeans(i: nat, maxBackoff: int)
    ensures Ideal(i + 1, maxBackoff) ==
              if Pow2(i) * 1_000_000_000 > maxBackoff then maxBackoff else Pow2(i) * 1_000_000_000
    ensures Pow2(0) == 1 && Pow2(i + 1) == Pow2(i) + Pow2(i)
  {
  }

  /** The least positive value an overflowed base takes: 327680 * 2^43 ns, at attempt 51. */
  const LEAST_OVERFLOW: int := 2_882_303_761_517_117_440

  lemma {:induction false} Pow2Sum(m: nat, n: nat)
    ensures Pow2(m + n) == Pow2(m) * Pow2(n)
  {
    if m > 0 {
      Pow2Sum(m - 1, n);
      TwiceProduct(Pow2(m - 1), Pow2(n));
    }
  }

  lemma TwiceProduct(x: int, y: int)
    ensures 2 * (x * y) == (2 * x) * y
  {
  }

  lemma {:induction false} Pow2Grows(m: nat, n: nat)
    requires m <= n
    ensures Pow2(m) <= Pow2(n)
  {
    if m < n {
      Pow2Grows(m, n - 1);
    }
  }

  lemma Pow2Values()
    ensures Pow2(33) == 8_589_934_592 && Pow2(34) == 17_179_869_184 && Pow2(64) == TWO_64
  {
    var p4 := Pow2Doubled(2, 4);
    var p8 := Pow2Doubled(4, p4);
    var p16 := Pow2Doubled(8, p8);
    var p32 := Pow2Doubled(16, p16);
    var p64 := Pow2Doubled(32, p32);
  }

  lemma Pow2Doubled(n: nat, p: int) returns (q: int)
    requires Pow2(n) == p
    ensures q == p * p && Pow2(2 * n) == q
  {
    Pow2Sum(n, n);
    q := p * p;
  }

  /** Up to attempt 34 nothing overflows. */
  lemma SmallBase(attempt: int)
    requires 1 <= attempt <= 34
    ensures Base(attempt) == Pow2(attempt - 1) * SECOND > 0
  {
    Pow2Grows(0, attempt - 1);
    Pow2Grows(attempt - 1, 33);
    Pow2Values();
  }

  lemma WrapDoubles(x: int)
    ensures Wrap(2 * x) == Wrap(2 * Wrap(x))
  {
    var k := (x + TWO_63) / TWO_64;
    assert Wrap(x) == x - k * TWO_64;
    assert (2 * x + TWO_63) % TWO_64 == (2 * x + TWO_63 - 2 * k * TWO_64) % TWO_64 by {
      ShiftedRemainder(2 * x + TWO_63, -2 * k);
    }
  }

  lemma ShiftedRemainder(x: int, k: int)
    ensures (x + k * TWO_64) % TWO_64 == x % TWO_64
  {
  }

  /** One more attempt doubles the base, modulo 2^64. */
  lemma Doubles(attempt: int)
    requires attempt >= 1
    ensures Base(attempt + 1) == Wrap(2 * Base(attempt))
  {
    var p := Pow2(attempt - 1);
    ProductWraps(p);
    ProductWraps(2 * p);
    assert Base(attempt) == Wrap(p * SECOND) && Base(attempt + 1) == Wrap(2 * p * SECOND);
    WrapDoubles(p * SECOND);
  }

  lemma ProductWraps(p: int)
    ensures Wrap(Wrap(p) * SECOND) == Wrap(p * SECOND)
  {
    var k := (p + TWO_63) / TWO_64;
    assert Wrap(p) == p - k * TWO_64;
    ShiftedRemainder(p * SECOND + TWO_63, -k * SECOND);
    assert p * SECOND + TWO_63 + -k * SECOND * TWO_64 == Wrap(p) * SECOND + TWO_63;
  }

  /** Twenty doublings of the first overflowed base. */
  lemma TwentyDoublings(b: seq<int>)
    requires |b| == 21 && b[0] == -1_266_874_889_709_551_616
    requires forall i :: 0 <= i < 20 ==> b[i + 1] == Wrap(2 * b[i])
    ensures forall i :: 0 <= i < 21 ==> b[i] <= 0 || b[i] >= LEAST_OVERFLOW
    ensures b[15] < 0 && b[16] == LEAST_OVERFLOW && b[20] == -TWO_63
  {
    TenDoublings(b[..11]);
    TenMoreDoublings(b[10..]);
    assert forall i :: 10 <= i < 21 ==> b[i] == b[10..][i - 10];
    assert forall i :: 0 <= i < 11 ==> b[i] == b[..11][i];
  }

  lemma TenDoublings(b: seq<int>)
    requires |b| == 11 && b[0] == -1_266_874_889_709_551_616
    requires forall i :: 0 <= i < 10 ==> b[i + 1] == Wrap(2 * b[i])
    ensures forall i :: 0 <= i < 11 ==> b[i] <= 0 || b[i] >= LEAST_OVERFLOW
    ensures b[10] == -6_007_801_902_912_241_664
  {
    assert b[1] == -2_533_749_779_419_103_232;
    assert b[2] == -5_067_499_558_838_206_464;
    assert b[3] == 8_311_744_956_033_138_688;
    assert b[4] == -1_823_254_161_643_274_240;
    assert b[5] == -3_646_508_323_286_548_480;
    assert b[6] == -7_293_016_646_573_096_960;
    assert b[7] == 3_860_710_780_563_357_696;
    assert b[8] == 7_721_421_561_126_715_392;
    assert b[9] == -3_003_900_951_456_120_832;
    assert b[10] == -6_007_801_902_912_241_664;
  }

  lemma TenMoreDoublings(b: seq<int>)
    requires |b| == 11 && b[0] == -6_007_801_902_912_241_664
    requires forall i :: 0 <= i < 10 ==> b[i + 1] == Wrap(2 * b[i])
    ensures forall i :: 0 <= i < 11 ==> b[i] <= 0 || b[i] >= LEAST_OVERFLOW
    ensures b[5] < 0 && b[6] == LEAST_OVERFLOW && b[10] == -TWO_63
  {
    assert b[1] == 6_431_140_267_885_068_288;
    assert b[2] == -5_584_463_537_939_415_040;
    assert b[3] == 7_277_816_997_830_721_536;
    assert b[4] == -3_891_110_078_048_108_544;
    assert b[5] == -7_782_220_156_096_217_088;
    assert b[6] == 2_882_303_761_517_117_440;
    assert b[7] == 5_764_607_523_034_234_880;
    assert b[8] == -6_917_529_027_641_081_856;
    assert b[9] == 4_611_686_018_427_387_904;
    assert b[10] == -9_223_372_036_854_775_808;
  }

  lemma Base35()
    ensures Base(35) == -1_266_874_889_709_551_616
  {
    Pow2Values();
  }

  /** From attempt 35 to 55 the product wraps to something negative or to at least LEAST_OVERFLOW. */
  lemma WrappedBases()
    ensures forall a :: 35 <= a <= 55 ==> Base(a) <= 0 || Base(a) >= LEAST_OVERFLOW
    ensures Base(50) < 0 && Base(51) == LEAST_OVERFLOW && Base(55) == -TWO_63
  {
    var b := seq(21, i requires 0 <= i => Base(35 + i));
    Base35();
    forall i | 0 <= i < 20 ensures b[i + 1] == Wrap(2 * b[i]) {
      Doubles(35 + i);
    }
    TwentyDoublings(b);
    assert b[15] == Base(50) && b[16] == Base(51) && b[20] == Base(55);
    forall a | 35 <= a <= 55 ensures Base(a) <= 0 || Base(a) >= LEAST_OVERFLOW {
      assert b[a - 35] == Base(a);
    }
  }

  lemma {:induction false} ZeroBase(attempt: int)
    requires attempt >= 56
    ensures Base(attempt) == 0
  {
    if attempt == 56 {
      WrappedBases();
    } else {
      ZeroBase(attempt - 1);
    }
    Doubles(attempt - 1);
    NothingLeft(Base(attempt - 1));
  }

  lemma NothingLeft(base: int)
    requires base == -TWO_63 || base == 0
    ensures Wrap(2 * base) == 0
  {
  }

  lemma OverflowedBase(attempt: int)
    requires attempt >= 35
    ensures Base(attempt) <= 0 || Base(attempt) >= LEAST_OVERFLOW
    ensures Pow2(attempt - 1) * SECOND > TWO_63
  {
    Pow2Grows(34, attempt - 1);
    Pow2Values();
    WrappedBases();
    if attempt >= 56 {
      ZeroBase(attempt);
    }
  }

  // ----- the main results -----

  /** Up to LEAST_OVERFLOW (91 years) every attempt backs off as meant, and no further: a longer maximum
      is undercut at attempt 51. */
  lemma CeilingIsIdealExactlyBelowOverflow(maxBackoff: int)
    requires maxBackoff < TWO_63
    ensures (forall a: int :: Ceiling(a, maxBackoff) == Ideal(a, maxBackoff)) <==> maxBackoff <= LEAST_OVERFLOW
  {
    if maxBackoff <= LEAST_OVERFLOW {
      forall a: int ensures Ceiling(a, maxBackoff) == Ideal(a, maxBackoff) {
        if a <= 34 {
          SmallBase(AtLeastOne(a));
        } else {
          OverflowedBase(a);
        }
      }
    } else {
      WrappedBases();
      OverflowedBase(51);
      assert Ceiling(51, maxBackoff) != Ideal(51, maxBackoff);
    }
  }

  /** And then the ceiling never falls from one attempt to a later one. */
  lemma CeilingIsMonotone(a: int, b: int, maxBackoff: int)
    requires a <= b && maxBackoff <= LEAST_OVERFLOW
    ensures Ceiling(a, maxBackoff) <= Ceiling(b, maxBackoff)
  {
    CeilingIsIdealExactlyBelowOverflow(maxBackoff);
    assert Ceiling(a, maxBackoff) == Ideal(a, maxBackoff) && Ceiling(b, maxBackoff) == Ideal(b, maxBackoff);
    Pow2Grows(AtLeastOne(a) - 1, AtLeastOne(b) - 1);
  }

  // ----- the code -----

  /** rand.Int63n, for one state of the generator: something below n. */
  ghost predicate DrawsBelow(draw: int -> int) {
    forall n: int :: n > 0 ==> 0 <= draw(n) < n
  }

  /** backoffWithJitter: whatever the attempt and the maximum, the delay is below the maximum and not
      negative, or zero if there is no positive maximum; up to LEAST_OVERFLOW it is drawn below the exact
      capped exponential. */
  method BackoffWithJitter(attempt: int, maxBackoff: int, draw: int -> int) returns (delay: int)
    requires maxBackoff < TWO_63 && DrawsBelow(draw)
    ensures if maxBackoff <= 0 then delay == 0 else 0 <= delay < maxBackoff
    ensures 0 < maxBackoff <= LEAST_OVERFLOW ==>
              var exact := Pow2((if attempt < 1 then 1 else attempt) - 1) * 1_000_000_000;
              delay == draw(if exact > maxBackoff then maxBackoff else exact)
  {
    var n := attempt;
    if n < 1 {
      n := 1;
    }
    var base := Wrap(Wrap(Pow2(n - 1)) * SECOND);
    if base > maxBackoff || base <= 0 {
      base := maxBackoff;
    }
    if base <= 0 {
      return 0;
    }
    CeilingIsIdealExactlyBelowOverflow(maxBackoff);
    assert base == Ceiling(attempt, maxBackoff);
    delay := draw(base);
  }

  /** The attempt loop of runClient, for any number of failed connections, the generator's states given:
      every wait is below the maximum, and up to LEAST_OVERFLOW the one before the i-th reconnection is drawn
      below the i-th of 1 s, 2 s, 4 s, ..., capped. */
  method RunClient(maxBackoff: int, draws: seq<int -> int>) returns (waits: seq<int>)
    requires maxBackoff < TWO_63
    requires forall i :: 0 <= i < |draws| ==> DrawsBelow(draws[i])
    ensures |waits| == |draws|
    ensures forall i :: 0 <= i < |waits| ==> if maxBackoff <= 0 then waits[i] == 0 else 0 <= waits[i] < maxBackoff
    ensures 0 < maxBackoff <= LEAST_OVERFLOW ==>
              forall i :: 0 <= i < |waits| ==> waits[i] == draws[i](Ideal(i + 1, maxBackoff))
  {
    var attempt := 0;
    waits := [];
    while attempt < |draws|
      invariant 0 <= attempt <= |draws| && |waits| == attempt
      invariant forall i :: 0 <= i < |waits| ==> if maxBackoff <= 0 then waits[i] == 0 else 0 <= waits[i] < maxBackoff
      invariant 0 < maxBackoff <= LEAST_OVERFLOW ==>
                  forall i :: 0 <= i < |waits| ==> waits[i] == draws[i](Ideal(i + 1, maxBackoff))
    {
      attempt := attempt + 1;
      var wait := BackoffWithJitter(attempt, maxBackoff, draws[attempt - 1]);
      waits := waits + [wait];
    }
  }
}
