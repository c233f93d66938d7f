/** Comparison of times that wrap around (src/clock/clock.h). Everywhere else times are unwrapped. */
module Clock {
  const TWO_63: int := 0x8000_0000_0000_0000
  const TWO_64: int := 0x1_0000_0000_0000_0000

  /** The value of an unsigned 64-bit difference read as a signed one. */
  function Signed(difference: int): (n: int)
    requires 0 <= difference < TWO_64
    ensures -TWO_63 <= n < TWO_63 && (n - difference) % TWO_64 == 0
  {
    if difference < TWO_63 then difference else difference - TWO_64
  }

  /** mbus_clock_after */
  predicate After(a: int, b: int)
    requires 0 <= a < TWO_64 && 0 <= b < TWO_64
  {
    Signed((b - a) % TWO_64) < 0
  }

  /** mbus_clock_before */
  predicate Before(a: int, b: int)
    requires 0 <= a < TWO_64 && 0 <= b < TWO_64
  {
    After(b, a)
  }

  /** Of two times less than 2^64 apart, the comparison of the wrapped values is right exactly when
      they are less than 2^63 apart, or 2^63 apart with the first one later. */
  lemma AfterIsLater(a: nat, b: nat)
    requires -TWO_64 < b - a < TWO_64
    ensures (After(a % TWO_64, b % TWO_64) <==> a > b) <==> -TWO_63 <= b - a < TWO_63
  {
    var x, y := a % TWO_64, b % TWO_64;
    var n := (b - b % TWO_64) / TWO_64 - (a - a % TWO_64) / TWO_64;
    assert a == TWO_64 * (a / TWO_64) + x && b == TWO_64 * (b / TWO_64) + y;
    var d := (y - x) % TWO_64;
    assert (b - a) % TWO_64 == d by { SameRemainder(b - a, y - x, b / TWO_64 - a / TWO_64); }
    if b >= a {
      assert d == b - a;
    } else {
      assert d == b - a + TWO_64;
    }
  }

  lemma SameRemainder(p: int, q: int, k: int)
    requires p == q + TWO_64 * k
    ensures p % TWO_64 == q % TWO_64
  {
    var m, n := p / TWO_64, q / TWO_64;
    assert p == TWO_64 * m + p % TWO_64 && q == TWO_64 * n + q % TWO_64;
    assert p % TWO_64 - q % TWO_64 == TWO_64 * (n + k - m);
  }

  /** For times less than 2^63 apart, as all those the clients and the broker compare. */
  lemma TimesCompare(a: nat, b: nat)
    requires -TWO_63 < b - a < TWO_63
    ensures After(a % TWO_64, b % TWO_64) <==> a > b
    ensures Before(a % TWO_64, b % TWO_64) <==> a < b
  {
    AfterIsLater(a, b);
    AfterIsLater(b, a);
  }
}
