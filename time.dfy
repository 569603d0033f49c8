/**
 * `base::Time`: wall-clock time as a signed 64-bit count of microseconds since
 * the Unix epoch, with `time_t` and `timespec` conversions.
 */
module Times {
  import opened Int64
  import opened Deltas

  datatype Time = Time(us: int64)

  /** Whole seconds since the epoch, scaled to microseconds; the product must fit in int64. */
  function FromTimeT(tt: int64): (r: Time)
    requires InRange(tt as int * MicrosecondsInSeconds)
  {
    Time((tt as int * MicrosecondsInSeconds) as int64)
  }

  /** Seconds since the epoch, truncated toward zero. */
  function ToTimeT(t: Time): (r: int64)
    ensures TruncatedQuotient(r as int, t.us as int, MicrosecondsInSeconds)
  {
    Div(t.us as int, MicrosecondsInSeconds) as int64
  }

  function FromTimeSpec(ts: TimeSpec): (r: Time)
    requires InRange(ts.tvSec as int * MicrosecondsInSeconds + Quot(ts.tvNsec as int, NanosecondsInMicroseconds))
    ensures TruncatedQuotient(r.us as int - ts.tvSec as int * MicrosecondsInSeconds, ts.tvNsec as int, NanosecondsInMicroseconds)
  {
    Time((ts.tvSec as int * MicrosecondsInSeconds + Div(ts.tvNsec as int, NanosecondsInMicroseconds)) as int64)
  }

  /**
   * Truncated seconds and the truncated remainder in nanoseconds: both fields
   * carry the sign of the time and the nanoseconds stay below one second.
   */
  function ToTimeSpec(t: Time): (r: TimeSpec)
    ensures t.us >= 0 ==> 0 <= r.tvNsec < 1_000_000_000 && r.tvSec >= 0
    ensures t.us <= 0 ==> -1_000_000_000 < r.tvNsec <= 0 && r.tvSec <= 0
    ensures r.tvNsec as int % NanosecondsInMicroseconds == 0
  {
    DivisionIdentity(t.us as int, MicrosecondsInSeconds);
    var sec := Quot(t.us as int, MicrosecondsInSeconds);
    var rem := Rem(t.us as int, MicrosecondsInSeconds);
    TimeSpec(sec as int64, (rem * NanosecondsInMicroseconds) as int64)
  }

  /** `ToTimeT` undoes `FromTimeT`. */
  lemma TimeTRoundTrip(tt: int64)
    requires InRange(tt as int * MicrosecondsInSeconds)
    ensures ToTimeT(FromTimeT(tt)) == tt
  {
    QuotOfMultiple(tt as int, MicrosecondsInSeconds);
  }

  /** `FromTimeSpec` undoes `ToTimeSpec` for every time, negative ones included. */
  lemma TimeSpecRoundTrip(t: Time)
    ensures InRange(ToTimeSpec(t).tvSec as int * MicrosecondsInSeconds
                    + Quot(ToTimeSpec(t).tvNsec as int, NanosecondsInMicroseconds))
    ensures FromTimeSpec(ToTimeSpec(t)) == t
  {
    var ts := ToTimeSpec(t);
    DivisionIdentity(t.us as int, MicrosecondsInSeconds);
    var rem := Rem(t.us as int, MicrosecondsInSeconds);
    QuotOfMultiple(rem, NanosecondsInMicroseconds);
    assert ts.tvNsec as int == rem * NanosecondsInMicroseconds;
    assert ts.tvSec as int * MicrosecondsInSeconds + rem == t.us as int;
  }

  /** `Time::FromTimeSpec` and `TimeDelta::FromTimeSpec` read a `timespec` identically. */
  lemma FromTimeSpecAgreesWithDelta(ts: TimeSpec)
    requires InRange(ts.tvSec as int * MicrosecondsInSeconds + Quot(ts.tvNsec as int, NanosecondsInMicroseconds))
    ensures FromTimeSpec(ts).us == Deltas.FromTimeSpec(ts).us
  {
  }

  // ---- arithmetic with durations (signed overflow is undefined, so results must fit) ----

  function AddDelta(t: Time, d: TimeDelta): (r: Time)
    requires InRange(t.us as int + d.us as int)
  {
    Time((t.us as int + InMicroseconds(d) as int) as int64)
  }

  function SubDelta(t: Time, d: TimeDelta): (r: Time)
    requires InRange(t.us as int - d.us as int)
  {
    Time((t.us as int - InMicroseconds(d) as int) as int64)
  }

  /** `Time - Time`: the duration between two times. */
  function Diff(t: Time, u: Time): (r: TimeDelta)
    requires InRange(t.us as int - u.us as int)
  {
    TimeDelta((t.us as int - u.us as int) as int64)
  }

  /** Adding a duration and subtracting it again, or measuring it back, recovers the parts. */
  lemma AddSubCancel(t: Time, d: TimeDelta)
    requires InRange(t.us as int + d.us as int)
    ensures SubDelta(AddDelta(t, d), d) == t
    ensures Diff(AddDelta(t, d), t) == d
  {
  }

  /** Adding the difference of two times to the later-subtracted one gives the other time back. */
  lemma AddDiff(t: Time, u: Time)
    requires InRange(t.us as int - u.us as int)
    ensures AddDelta(u, Diff(t, u)) == t
  {
  }

  // ---- comparisons ----

  predicate Eq(a: Time, b: Time) { a.us == b.us }
  predicate Ne(a: Time, b: Time) { a.us != b.us }
  predicate Lt(a: Time, b: Time) { a.us < b.us }
  predicate Le(a: Time, b: Time) { a.us <= b.us }
  predicate Gt(a: Time, b: Time) { a.us > b.us }
  predicate Ge(a: Time, b: Time) { a.us >= b.us }

  /** `==` is value equality, the operators form one total order, and adding a positive duration moves later. */
  lemma ComparisonsAreTotalOrder(a: Time, b: Time, c: Time, d: TimeDelta)
    ensures Eq(a, b) <==> a == b
    ensures Ne(a, b) <==> !Eq(a, b)
    ensures Le(a, b) <==> Lt(a, b) || Eq(a, b)
    ensures Gt(a, b) <==> Lt(b, a)
    ensures Ge(a, b) <==> Le(b, a)
    ensures Lt(a, b) || Eq(a, b) || Gt(a, b)
    ensures Lt(a, b) && Lt(b, c) ==> Lt(a, c)
    ensures InRange(a.us as int + d.us as int) ==> (Lt(a, AddDelta(a, d)) <==> IsPositive(d))
  {
  }

  /** A `Time` variable, for the in-place `+=` and `-=`. */
  class TimeVar {
    var value: Time

    constructor (v: Time)
      ensures value == v
    {
      value := v;
    }

    /** `us_time_ += delta`, returning the new value. */
    method AddAssign(d: TimeDelta) returns (r: Time)
      requires InRange(value.us as int + d.us as int)
      modifies this
      ensures value == AddDelta(old(value), d) && r == value
    {
      value := Time((value.us as int + InMicroseconds(d) as int) as int64);
      r := value;
    }

    /** `us_time_ -= delta`, returning the new value. */
    method SubAssign(d: TimeDelta) returns (r: Time)
      requires InRange(value.us as int - d.us as int)
      modifies this
      ensures value == SubDelta(old(value), d) && r == value
    {
      value := Time((value.us as int - InMicroseconds(d) as int) as int64);
      r := value;
    }
  }
}
