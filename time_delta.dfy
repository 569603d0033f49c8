/**
 * `base::TimeDelta`: a signed 64-bit count of microseconds, its unit
 * factories, integer conversions, arithmetic and comparisons.
 */
module Deltas {
  import opened Int64

  const NanosecondsInMicroseconds: int := 1000
  const MicrosecondsInMilliseconds: int := 1000
  const MicrosecondsInSeconds: int := 1000 * MicrosecondsInMilliseconds
  const MicrosecondsInMinutes: int := 60 * MicrosecondsInSeconds
  const MicrosecondsInHours: int := 60 * MicrosecondsInMinutes
  const MicrosecondsInDays: int := 24 * MicrosecondsInHours

  /** A duration in microseconds; the value-initialised `TimeDelta{}` is `TimeDelta(0)`. */
  datatype TimeDelta = TimeDelta(us: int64)

  /** POSIX `timespec`: whole seconds and nanoseconds. */
  datatype TimeSpec = TimeSpec(tvSec: int64, tvNsec: int64)

  /**
   * `q` is `a / b` as C++ computes it: `q * b` is the multiple of `b` nearest
   * to `a` on the side of zero.
   */
  predicate TruncatedQuotient(q: int, a: int, b: int)
    requires b > 0
  {
    (a >= 0 ==> 0 <= a - q * b < b) && (a <= 0 ==> -b < a - q * b <= 0)
  }

  /** C++ division with the characterisation above established. */
  function Div(a: int, b: int): (q: int)
    requires b > 0
    ensures TruncatedQuotient(q, a, b)
    ensures q == Quot(a, b)
  {
    DivisionIdentity(a, b);
    Quot(a, b)
  }

  // ---- factories (integer arguments; the product must fit in int64) ----

  function Days(n: int): (r: TimeDelta)
    requires InRange(n * MicrosecondsInDays)
  {
    TimeDelta((n * MicrosecondsInDays) as int64)
  }

  function Hours(n: int): (r: TimeDelta)
    requires InRange(n * MicrosecondsInHours)
  {
    TimeDelta((n * MicrosecondsInHours) as int64)
  }

  function Minutes(n: int): (r: TimeDelta)
    requires InRange(n * MicrosecondsInMinutes)
  {
    TimeDelta((n * MicrosecondsInMinutes) as int64)
  }

  function Seconds(n: int): (r: TimeDelta)
    requires InRange(n * MicrosecondsInSeconds)
  {
    TimeDelta((n * MicrosecondsInSeconds) as int64)
  }

  function Milliseconds(n: int): (r: TimeDelta)
    requires InRange(n * MicrosecondsInMilliseconds)
  {
    TimeDelta((n * MicrosecondsInMilliseconds) as int64)
  }

  function Microseconds(n: int64): (r: TimeDelta)
  {
    TimeDelta(n)
  }

  /** Nanoseconds are truncated toward zero to whole microseconds. */
  function Nanoseconds(n: int64): (r: TimeDelta)
    ensures TruncatedQuotient(r.us as int, n as int, NanosecondsInMicroseconds)
  {
    TimeDelta(Div(n as int, NanosecondsInMicroseconds) as int64)
  }

  /** `TimeDelta::FromTimeSpec`: whole seconds plus the nanoseconds truncated to microseconds. */
  function FromTimeSpec(ts: TimeSpec): (r: TimeDelta)
    requires InRange(ts.tvSec as int * MicrosecondsInSeconds + Quot(ts.tvNsec as int, NanosecondsInMicroseconds))
    ensures TruncatedQuotient(r.us as int - ts.tvSec as int * MicrosecondsInSeconds, ts.tvNsec as int, NanosecondsInMicroseconds)
  {
    TimeDelta((ts.tvSec as int * MicrosecondsInSeconds + Div(ts.tvNsec as int, NanosecondsInMicroseconds)) as int64)
  }

  // ---- sign predicates ----

  predicate IsZero(d: TimeDelta) { d.us == 0 }
  predicate IsPositive(d: TimeDelta) { d.us > 0 }
  predicate IsNegative(d: TimeDelta) { d.us < 0 }

  /** Every duration is exactly one of zero, positive or negative. */
  lemma SignTrichotomy(d: TimeDelta)
    ensures IsZero(d) || IsPositive(d) || IsNegative(d)
    ensures !(IsZero(d) && IsPositive(d)) && !(IsZero(d) && IsNegative(d)) && !(IsPositive(d) && IsNegative(d))
  {
  }

  // ---- integer conversions ----

  /** `static_cast<int>` of the truncated day count. */
  function InDays(d: TimeDelta): (r: int32)
    ensures TruncatedQuotient(r as int, d.us as int, MicrosecondsInDays)
  {
    var q := Div(d.us as int, MicrosecondsInDays);
    DaysFitInt32(d.us as int, q);
    ToInt32(q)
  }

  /** The day count of any int64 microsecond value fits in 32 bits, so `InDays` never wraps. */
  lemma DaysFitInt32(us: int, q: int)
    requires InRange(us) && TruncatedQuotient(q, us, MicrosecondsInDays)
    ensures -0x8000_0000 <= q < 0x8000_0000
  {
    if q >= 0x8000_0000 {
      MulMonotone(0x8000_0000, q, MicrosecondsInDays);
    } else if q < -0x8000_0000 {
      MulMonotone(q, -0x8000_0000, MicrosecondsInDays);
    }
  }

  /** `static_cast<int>` of the truncated hour count: wraps modulo 2^32 for long durations. */
  function InHours(d: TimeDelta): (r: int32)
    ensures -0x8000_0000 <= Div(d.us as int, MicrosecondsInHours) < 0x8000_0000 ==>
              TruncatedQuotient(r as int, d.us as int, MicrosecondsInHours)
  {
    ToInt32(Div(d.us as int, MicrosecondsInHours))
  }

  /** `static_cast<int>` of the truncated minute count: wraps modulo 2^32 for long durations. */
  function InMinutes(d: TimeDelta): (r: int32)
    ensures -0x8000_0000 <= Div(d.us as int, MicrosecondsInMinutes) < 0x8000_0000 ==>
              TruncatedQuotient(r as int, d.us as int, MicrosecondsInMinutes)
  {
    ToInt32(Div(d.us as int, MicrosecondsInMinutes))
  }

  /** The hour count without the narrowing to `int`. */
  function InHoursExact(d: TimeDelta): (r: int64)
    ensures TruncatedQuotient(r as int, d.us as int, MicrosecondsInHours)
  {
    Div(d.us as int, MicrosecondsInHours) as int64
  }

  /** The minute count without the narrowing to `int`. */
  function InMinutesExact(d: TimeDelta): (r: int64)
    ensures TruncatedQuotient(r as int, d.us as int, MicrosecondsInMinutes)
  {
    Div(d.us as int, MicrosecondsInMinutes) as int64
  }

  function InSeconds(d: TimeDelta): (r: int64)
    ensures TruncatedQuotient(r as int, d.us as int, MicrosecondsInSeconds)
  {
    Div(d.us as int, MicrosecondsInSeconds) as int64
  }

  function InMilliseconds(d: TimeDelta): (r: int64)
    ensures TruncatedQuotient(r as int, d.us as int, MicrosecondsInMilliseconds)
  {
    Div(d.us as int, MicrosecondsInMilliseconds) as int64
  }

  function InMicroseconds(d: TimeDelta): (r: int64)
  {
    d.us
  }

  /** Signed overflow of `us * 1000` is undefined, so the product must fit. */
  function InNanoseconds(d: TimeDelta): (r: int64)
    requires InRange(d.us as int * NanosecondsInMicroseconds)
  {
    (d.us as int * NanosecondsInMicroseconds) as int64
  }

  /** `InMilliseconds` undoes the `Milliseconds` factory. */
  lemma MillisecondsRoundTrip(n: int)
    requires InRange(n * MicrosecondsInMilliseconds)
    ensures InMilliseconds(Milliseconds(n)) as int == n
  {
    QuotOfMultiple(n, MicrosecondsInMilliseconds);
  }

  /** `InSeconds` undoes the `Seconds` factory. */
  lemma SecondsRoundTrip(n: int)
    requires InRange(n * MicrosecondsInSeconds)
    ensures InSeconds(Seconds(n)) as int == n
  {
    QuotOfMultiple(n, MicrosecondsInSeconds);
  }

  /** `InMinutesExact` undoes the `Minutes` factory. */
  lemma MinutesRoundTrip(n: int)
    requires InRange(n * MicrosecondsInMinutes)
    ensures InMinutesExact(Minutes(n)) as int == n
  {
    QuotOfMultiple(n, MicrosecondsInMinutes);
  }

  /** `InHoursExact` undoes the `Hours` factory. */
  lemma HoursRoundTrip(n: int)
    requires InRange(n * MicrosecondsInHours)
    ensures InHoursExact(Hours(n)) as int == n
  {
    QuotOfMultiple(n, MicrosecondsInHours);
  }

  /** `InDays` undoes the `Days` factory. */
  lemma DaysRoundTrip(n: int)
    requires InRange(n * MicrosecondsInDays)
    ensures InDays(Days(n)) as int == n
  {
    QuotOfMultiple(n, MicrosecondsInDays);
  }

  /** Converting to nanoseconds and back loses nothing. */
  lemma NanosecondsRoundTrip(d: TimeDelta)
    requires InRange(d.us as int * NanosecondsInMicroseconds)
    ensures Nanoseconds(InNanoseconds(d)) == d
  {
    QuotOfMultiple(d.us as int, NanosecondsInMicroseconds);
  }

  /** `InHours` agrees with the exact hour count whenever that count fits in `int`. */
  lemma InHoursAgreesWhenItFits(d: TimeDelta)
    requires -0x8000_0000 <= InHoursExact(d) < 0x8000_0000
    ensures InHours(d) as int == InHoursExact(d) as int
  {
  }

  /** A duration of 2^31 hours fits in int64 but `InHours` reports -2^31 hours. */
  lemma InHoursWrapsForLongDurations()
    ensures InRange(0x8000_0000 * MicrosecondsInHours)
    ensures InHours(Hours(0x8000_0000)) == -0x8000_0000
    ensures InHoursExact(Hours(0x8000_0000)) == 0x8000_0000
  {
    QuotOfMultiple(0x8000_0000, MicrosecondsInHours);
  }

  /** A duration of 2^31 minutes fits in int64 but `InMinutes` reports -2^31 minutes. */
  lemma InMinutesWrapsForLongDurations()
    ensures InRange(0x8000_0000 * MicrosecondsInMinutes)
    ensures InMinutes(Minutes(0x8000_0000)) == -0x8000_0000
    ensures InMinutesExact(Minutes(0x8000_0000)) == 0x8000_0000
  {
    QuotOfMultiple(0x8000_0000, MicrosecondsInMinutes);
  }

  // ---- arithmetic (signed overflow is undefined, so results must fit) ----

  function Plus(a: TimeDelta, b: TimeDelta): (r: TimeDelta)
    requires InRange(a.us as int + b.us as int)
  {
    TimeDelta((a.us as int + b.us as int) as int64)
  }

  function Minus(a: TimeDelta, b: TimeDelta): (r: TimeDelta)
    requires InRange(a.us as int - b.us as int)
  {
    TimeDelta((a.us as int - b.us as int) as int64)
  }

  function Negate(a: TimeDelta): (r: TimeDelta)
    requires InRange(-(a.us as int))
  {
    TimeDelta((-(a.us as int)) as int64)
  }

  /** Subtracting what was added gives back the original duration. */
  lemma PlusMinusCancel(a: TimeDelta, b: TimeDelta)
    requires InRange(a.us as int + b.us as int)
    ensures Minus(Plus(a, b), b) == a
  {
  }

  /** Negation is an involution, turns a positive duration into a negative one, and `a - b == a + (-b)`. */
  lemma NegateLaws(a: TimeDelta, b: TimeDelta)
    requires InRange(-(a.us as int)) && InRange(-(b.us as int)) && InRange(a.us as int - b.us as int)
    ensures Negate(Negate(a)) == a
    ensures IsPositive(a) <==> IsNegative(Negate(a))
    ensures Minus(a, b) == Plus(a, Negate(b))
  {
  }

  // ---- comparisons ----

  predicate Eq(a: TimeDelta, b: TimeDelta) { a.us == b.us }
  predicate Ne(a: TimeDelta, b: TimeDelta) { a.us != b.us }
  predicate Lt(a: TimeDelta, b: TimeDelta) { a.us < b.us }
  predicate Le(a: TimeDelta, b: TimeDelta) { a.us <= b.us }
  predicate Gt(a: TimeDelta, b: TimeDelta) { a.us > b.us }
  predicate Ge(a: TimeDelta, b: TimeDelta) { a.us >= b.us }

  /** `==` is value equality and the other five operators form one strict total order. */
  lemma ComparisonsAreTotalOrder(a: TimeDelta, b: TimeDelta, c: TimeDelta)
    ensures Eq(a, b) <==> a == b
    ensures Ne(a, b) <==> !Eq(a, b)
    ensures Le(a, b) <==> Lt(a, b) || Eq(a, b)
    ensures Gt(a, b) <==> Lt(b, a)
    ensures Ge(a, b) <==> Le(b, a)
    ensures Lt(a, b) || Eq(a, b) || Gt(a, b)
    ensures !(Lt(a, b) && Gt(a, b))
    ensures Lt(a, b) && Lt(b, c) ==> Lt(a, c)
  {
  }

  /** A `TimeDelta` variable, for the compound assignments `+=` and `-=`. */
  class TimeDeltaVar {
    var value: TimeDelta

    constructor (v: TimeDelta)
      ensures value == v
    {
      value := v;
    }

    /** `*this = *this + other`, returning the new value. */
    method AddAssign(other: TimeDelta) returns (r: TimeDelta)
      requires InRange(value.us as int + other.us as int)
      modifies this
      ensures value == Plus(old(value), other) && r == value
    {
      value := Plus(value, other);
      r := value;
    }

    /** `*this = *this - other`, returning the new value. */
    method SubAssign(other: TimeDelta) returns (r: TimeDelta)
      requires InRange(value.us as int - other.us as int)
      modifies this
      ensures value == Minus(old(value), other) && r == value
    {
      value := Minus(value, other);
      r := value;
    }
  }
}
