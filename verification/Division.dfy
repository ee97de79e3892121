/** The few facts about division by a variable that the block arithmetic rests on. */
module Division {
  lemma AtLeast(a: int, d: nat)
    requires a >= 1
    ensures a * d >= d
  {
  }

  lemma Monotone(x: nat, y: nat, d: nat)
    requires x <= y
    ensures x * d <= y * d
  {
  }

  /** Quotient and remainder are unique. */
  lemma Unique(x: nat, d: nat, q: int, r: nat)
    requires r < d && x == q * d + r
    ensures x / d == q && x % d == r
  {
    var e := q - x / d;
    assert e * d == q * d - x / d * d && -e * d == -(e * d);
    assert e * d == x % d - r;
    if e >= 1 {
      AtLeast(e, d);
    } else if e <= -1 {
      AtLeast(-e, d);
    }
  }
}
