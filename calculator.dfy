/**
 * src/flight/calculator.rs: the integer arrival-time computation and the speed guard of the
 * segment time. `flight_time_minutes as i64 * 60` always fits in an `i64`; the addition may
 * not, and wraps as a release build of the source does.
 */
module Calculator {
  import opened Errors

  const Modulus64: int := 0x1_0000_0000_0000_0000

  /** Two's-complement wrap-around of an integer into the `i64` range. */
  function Wrap64(x: int): (r: Int64)
    ensures I64Min <= x < I64Bound ==> r == x
    ensures (r - x) % Modulus64 == 0
  {
    (x - I64Min) % Modulus64 + I64Min
  }

  /** Wrapping depends only on the value modulo 2^64. */
  lemma {:induction false} WrapShift(x: int, k: int)
    ensures Wrap64(x + k * Modulus64) == Wrap64(x)
    decreases if k < 0 then -k else k
  {
    if k > 0 {
      WrapShift(x, k - 1);
      assert x + k * Modulus64 == (x + (k - 1) * Modulus64) + Modulus64;
      WrapStep(x + (k - 1) * Modulus64);
    } else if k < 0 {
      WrapShift(x, k + 1);
      assert x + (k + 1) * Modulus64 == (x + k * Modulus64) + Modulus64;
      WrapStep(x + k * Modulus64);
    }
  }

  /** One more turn of 2^64 wraps to the same value. */
  lemma WrapStep(x: int)
    ensures Wrap64(x + Modulus64) == Wrap64(x)
  {
  }

  /** Wrapping an intermediate sum does not change the wrapped total. */
  lemma WrapThenAdd(x: int, y: int)
    ensures Wrap64(Wrap64(x) + y) == Wrap64(x + y)
  {
    var k := (Wrap64(x) - x) / Modulus64;
    assert Wrap64(x) == x + k * Modulus64;
    assert Wrap64(x) + y == (x + y) + k * Modulus64;
    WrapShift(x + y, k);
  }

  /** `calculate_eta`: the departure time plus the flight time in seconds. */
  function Eta(departureTime: Int64, flightTimeMinutes: Int32): (r: Int64)
    ensures (r - (departureTime + flightTimeMinutes * 60)) % Modulus64 == 0
  {
    Wrap64(departureTime + flightTimeMinutes * 60)
  }

  /** Without overflow the arrival time is exactly the departure time plus 60 s per minute. */
  lemma EtaExact(d: Int64, m: Int32)
    requires I64Min <= d + 60 * m < I64Bound
    ensures Eta(d, m) == d + 60 * m
  {
  }

  /** No flight time, no change. */
  lemma EtaZero(d: Int64)
    ensures Eta(d, 0) == d
  {
  }

  /** Adding two flight times one after the other is adding their sum. */
  lemma EtaCompose(d: Int64, a: Int32, b: Int32)
    requires I32Min <= a + b < I32Bound
    ensures Eta(Eta(d, a), b) == Eta(d, a + b)
  {
    WrapThenAdd(d + a * 60, b * 60);
    assert (d + a * 60) + b * 60 == d + (a + b) * 60;
  }

  /** test_calculate_eta. */
  lemma EtaExample()
    ensures Eta(1000, 120) == 1000 + 7200
  {
  }

  /**
   * Rounding half away from zero, as `f64::round`, followed by the saturating `as i32`
   * cast. The floating-point division and multiplication are exact here (`real`).
   */
  function RoundToI32(x: real): (r: Int32)
    ensures x >= 0.0 ==> r >= 0
    ensures x <= 0.0 ==> r <= 0
    ensures x >= 0.0 && x < (I32Bound - 1) as real + 0.5 ==> x - 0.5 < r as real <= x + 0.5
    ensures x <= 0.0 && x > I32Min as real - 0.5 ==> x - 0.5 <= r as real < x + 0.5
    ensures x > (I32Bound - 1) as real ==> r == I32Bound - 1
    ensures x < I32Min as real ==> r == I32Min
  {
    var n := if x >= 0.0 then (x + 0.5).Floor else -((-x + 0.5).Floor);
    if n < I32Min then I32Min else if n >= I32Bound then I32Bound - 1 else n
  }

  /** `calculate_segment_time`: minutes for `distanceNm` at `speedKnots`; 0 for a speed that is not positive. */
  function SegmentTime(distanceNm: real, speedKnots: Int32): (r: Int32)
    ensures speedKnots <= 0 ==> r == 0
    ensures speedKnots > 0 && distanceNm >= 0.0 ==> r >= 0
    ensures speedKnots > 0 ==>
              var minutes := distanceNm / speedKnots as real * 60.0;
              && (minutes >= 0.0 && minutes < (I32Bound - 1) as real + 0.5 ==> minutes - 0.5 < r as real <= minutes + 0.5)
              && (minutes <= 0.0 && minutes > I32Min as real - 0.5 ==> minutes - 0.5 <= r as real < minutes + 0.5)
              && (minutes > (I32Bound - 1) as real ==> r == I32Bound - 1)
              && (minutes < I32Min as real ==> r == I32Min)
  {
    if speedKnots <= 0 then 0
    else RoundToI32(distanceNm / speedKnots as real * 60.0)
  }

  /** test_calculate_segment_time: 100 nm at 200 kt take 30 minutes. */
  lemma SegmentTimeExample()
    ensures SegmentTime(100.0, 200) == 30
  {
    assert 100.0 / 200 as real * 60.0 == 30.0;
  }
}
