/**
 * `base::TimeTicks`: a monotonic clock reading, a signed 64-bit count of
 * microseconds since an unspecified origin. `Now` reads the clock and is not
 * part of this model; callers pass readings in.
 */
module Ticks {
  import opened Int64
  import opened Deltas

  datatype TimeTicks = TimeTicks(us: int64)

  // ---- arithmetic with durations (signed overflow is undefined, so results must fit) ----

  function AddDelta(t: TimeTicks, d: TimeDelta): (r: TimeTicks)
    requires InRange(t.us as int + d.us as int)
  {
    TimeTicks((t.us as int + InMicroseconds(d) as int) as int64)
  }

  function SubDelta(t: TimeTicks, d: TimeDelta): (r: TimeTicks)
    requires InRange(t.us as int - d.us as int)
  {
    TimeTicks((t.us as int - InMicroseconds(d) as int) as int64)
  }

  /** `TimeTicks - TimeTicks`: the elapsed duration. */
  function Diff(t: TimeTicks, u: TimeTicks): (r: TimeDelta)
    requires InRange(t.us as int - u.us as int)
  {
    TimeDelta((t.us as int - u.us as int) as int64)
  }

  /** Adding a duration and subtracting it again, or measuring it back, recovers the parts. */
  lemma AddSubCancel(t: TimeTicks, d: TimeDelta)
    requires InRange(t.us as int + d.us as int)
    ensures SubDelta(AddDelta(t, d), d) == t
    ensures Diff(AddDelta(t, d), t) == d
  {
  }

  /** The elapsed time between two readings, added to the earlier one, gives the later one. */
  lemma AddDiff(t: TimeTicks, u: TimeTicks)
    requires InRange(t.us as int - u.us as int)
    ensures AddDelta(u, Diff(t, u)) == t
  {
  }

  // ---- comparisons ----

  predicate Eq(a: TimeTicks, b: TimeTicks) { a.us == b.us }
  predicate Ne(a: TimeTicks, b: TimeTicks) { a.us != b.us }
  predicate Lt(a: TimeTicks, b: TimeTicks) { a.us < b.us }
  predicate Le(a: TimeTicks, b: TimeTicks) { a.us <= b.us }
  predicate Gt(a: TimeTicks, b: TimeTicks) { a.us > b.us }
  predicate Ge(a: TimeTicks, b: TimeTicks) { a.us >= b.us }

  /** `==` is value equality, the operators form one total order, and the elapsed time is positive exactly when later. */
  lemma ComparisonsAreTotalOrder(a: TimeTicks, b: TimeTicks, c: TimeTicks)
    ensures Eq(a, b) <==> a == b
    ensures Ne(a, b) <==> !Eq(a, b)
    ensures Le(a, b) <==> Lt(a, b) || Eq(a, b)
    ensures Gt(a, b) <==> Lt(b, a)
    ensures Ge(a, b) <==> Le(b, a)
    ensures Lt(a, b) || Eq(a, b) || Gt(a, b)
    ensures Lt(a, b) && Lt(b, c) ==> Lt(a, c)
    ensures InRange(b.us as int - a.us as int) ==> (Lt(a, b) <==> IsPositive(Diff(b, a)))
  {
  }

  /** A `TimeTicks` variable, for the in-place `+=` and `-=`. */
  class TimeTicksVar {
    var value: TimeTicks

    constructor (v: TimeTicks)
      ensures value == v
    {
      value := v;
    }

    /** `us_time_ += delta`, returning the new value. */
    method AddAssign(d: TimeDelta) returns (r: TimeTicks)
      requires InRange(value.us as int + d.us as int)
      modifies this
      ensures value == AddDelta(old(value), d) && r == value
    {
      value := TimeTicks((value.us as int + InMicroseconds(d) as int) as int64);
      r := value;
    }

    /** `us_time_ -= delta`, returning the new value. */
    method SubAssign(d: TimeDelta) returns (r: TimeTicks)
      requires InRange(value.us as int - d.us as int)
      modifies this
      ensures value == SubDelta(old(value), d) && r == value
    {
      value := TimeTicks((value.us as int - InMicroseconds(d) as int) as int64);
      r := value;
    }
  }
}
