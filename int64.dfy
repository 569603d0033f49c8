/**
 * Fixed-width integers of the C++ sources and C++'s integer division.
 *
 * Signed overflow is undefined behaviour in C++, so an `int64` operation whose
 * exact result leaves the range becomes a precondition of the caller. Dafny's
 * `/` and `%` are Euclidean; C++ truncates toward zero, which `Quot` and `Rem`
 * model for the positive divisors the sources use.
 */
module Int64 {

  const MIN: int := -0x8000_0000_0000_0000
  const MAX: int := 0x7fff_ffff_ffff_ffff

  newtype int64 = x: int | -0x8000_0000_0000_0000 <= x < 0x8000_0000_0000_0000

  /** `uint64_t` / `size_t` values. */
  newtype uint64 = x: int | 0 <= x < 0x1_0000_0000_0000_0000

  /** 32-bit `int` values. */
  newtype int32 = x: int | -0x8000_0000 <= x < 0x8000_0000

  predicate InRange(x: int) { MIN <= x <= MAX }

  /** C++ `a / b` for `b > 0`: the quotient truncated toward zero. */
  function Quot(a: int, b: int): int
    requires b > 0
  {
    if a >= 0 then a / b else -((-a) / b)
  }

  /** C++ `a % b` for `b > 0`: the remainder carries the sign of `a`. */
  function Rem(a: int, b: int): int
    requires b > 0
  {
    if a >= 0 then a % b else -((-a) % b)
  }

  /** A multiple of a positive number strictly between `-b` and `b` is zero. */
  lemma SmallMultipleIsZero(x: int, b: int)
    requires b > 0 && -b < x * b < b
    ensures x == 0
  {
  }

  /** The quotient and remainder of C++ division are the unique pair with the sign of `a`. */
  lemma QuotRemUnique(a: int, b: int, q: int, r: int)
    requires b > 0 && a == q * b + r
    requires (a >= 0 && 0 <= r < b) || (a <= 0 && -b < r <= 0)
    ensures Quot(a, b) == q && Rem(a, b) == r
  {
    DivisionIdentity(a, b);
    var q', r' := Quot(a, b), Rem(a, b);
    assert (q - q') * b == r' - r;
    SmallMultipleIsZero(q - q', b);
  }

  /** `a == (a / b) * b + a % b` with C++ signs: the remainder has the sign of `a`. */
  lemma DivisionIdentity(a: int, b: int)
    requires b > 0
    ensures a == Quot(a, b) * b + Rem(a, b)
    ensures a >= 0 ==> 0 <= Rem(a, b) < b && Quot(a, b) >= 0
    ensures a <= 0 ==> -b < Rem(a, b) <= 0 && Quot(a, b) <= 0
  {
    var n := if a >= 0 then a else -a;
    var q, r := n / b, n % b;
    assert n == q * b + r && 0 <= r < b;
    NonNegativeQuotient(n, b, q, r);
    if a < 0 {
      assert Quot(a, b) * b == -(q * b);
    }
  }

  lemma NonNegativeQuotient(n: int, b: int, q: int, r: int)
    requires n >= 0 && b > 0 && n == q * b + r && 0 <= r < b
    ensures q >= 0
  {
    if q < 0 {
      MulMonotone(q, -1, b);
    }
  }

  lemma MulMonotone(x: int, y: int, b: int)
    requires x <= y && b > 0
    ensures x * b <= y * b
  {
  }

  /** Truncating division of an exact multiple gives back the factor. */
  lemma QuotOfMultiple(k: int, b: int)
    requires b > 0
    ensures Quot(k * b, b) == k && Rem(k * b, b) == 0
  {
    if k >= 0 {
      assert k * b >= 0;
    } else {
      assert k * b == -((-k) * b);
      assert (-k) * b >= 0;
    }
    QuotRemUnique(k * b, b, k, 0);
  }

  /** `static_cast<int>` of a 64-bit value: two's-complement wrap to 32 bits. */
  function ToInt32(x: int): (r: int32)
    ensures -0x8000_0000 <= x < 0x8000_0000 ==> r as int == x
    ensures (r as int - x) % 0x1_0000_0000 == 0
  {
    var m := x % 0x1_0000_0000;
    if m < 0x8000_0000 then m as int32 else (m - 0x1_0000_0000) as int32
  }
}
