/** Non-linear facts the other modules need, one small lemma each. */
module Arithmetic {
  function Pow2(k: nat): (p: nat)
    ensures p > 0
  {
    if k == 0 then 1 else 2 * Pow2(k - 1)
  }

  lemma MulMonotone(a: int, b: int, c: nat)
    requires a <= b
    ensures a * c <= b * c
  {
  }

  lemma MulStrict(a: int, b: int, c: nat)
    requires a < b && c > 0
    ensures a * c + c <= b * c
  {
    MulMonotone(a + 1, b, c);
  }

  lemma MulDouble(a: int, p: int)
    ensures a * p + a * p == a * (2 * p)
  {
  }

  lemma DivBounds(a: int, d: nat)
    requires d > 0
    ensures (a / d) * d <= a < (a / d) * d + d
  {
  }

  lemma DivUnique(a: int, d: nat, q: int)
    requires d > 0 && q * d <= a < q * d + d
    ensures a / d == q
  {
    DivBounds(a, d);
    if a / d < q {
      MulStrict(a / d, q, d);
    } else if a / d > q {
      MulStrict(q, a / d, d);
    }
  }

  lemma DivMonotone(a: int, b: int, d: nat)
    requires a <= b && d > 0
    ensures a / d <= b / d
  {
    DivBounds(a, d);
    DivBounds(b, d);
    if b / d < a / d {
      MulStrict(b / d, a / d, d);
    }
  }

  // Adding a multiple of the divisor shifts the quotient.
  lemma DivShift(a: int, d: nat, k: int)
    requires d > 0
    ensures (k * d + a) / d == k + a / d
  {
    DivBounds(a, d);
    assert (k + a / d) * d == k * d + (a / d) * d;
    DivUnique(k * d + a, d, k + a / d);
  }

  lemma ModShift(a: int, d: nat, k: int)
    requires d > 0
    ensures (k * d + a) % d == a % d
  {
    DivShift(a, d, k);
    assert (k + a / d) * d == k * d + (a / d) * d;
  }

  lemma ModAddLeft(a: int, b: int, d: nat)
    requires d > 0
    ensures (a % d + b) % d == (a + b) % d
  {
    assert (a / d) * d + (a % d + b) == a + b;
    ModShift(a % d + b, d, a / d);
  }

  lemma ModAddBoth(a: int, b: int, d: nat)
    requires d > 0
    ensures (a % d + b % d) % d == (a + b) % d
  {
    ModAddLeft(a, b % d, d);
    ModAddLeft(b, a, d);
  }

  lemma ModMulLeft(a: int, b: int, d: nat)
    requires d > 0
    ensures ((a % d) * b) % d == (a * b) % d
  {
    var q, r := a / d, a % d;
    assert a * b == (q * d + r) * b == (q * b) * d + r * b;
    ModShift(r * b, d, q * b);
  }
}
