/** Duration and the java.util.concurrent.TimeUnit conversions it delegates to:
    refining multiplies and saturates at the long range, coarsening divides and
    truncates toward zero. */
module Durations {
  import opened Wrappers
  import opened Decimal

  datatype TimeUnit = NANOSECONDS | MICROSECONDS | MILLISECONDS | SECONDS | MINUTES | HOURS | DAYS

  function UnitName(u: TimeUnit): string {
    match u
    case NANOSECONDS => "NANOSECONDS"
    case MICROSECONDS => "MICROSECONDS"
    case MILLISECONDS => "MILLISECONDS"
    case SECONDS => "SECONDS"
    case MINUTES => "MINUTES"
    case HOURS => "HOURS"
    case DAYS => "DAYS"
  }

  /** Length of one unit in nanoseconds. */
  function Nanos(u: TimeUnit): nat {
    match u
    case NANOSECONDS => 1
    case MICROSECONDS => 1_000
    case MILLISECONDS => 1_000_000
    case SECONDS => 1_000_000_000
    case MINUTES => 60_000_000_000
    case HOURS => 3_600_000_000_000
    case DAYS => 86_400_000_000_000
  }

  /** How many `fine` units make one `coarse` unit (the units nest exactly). */
  function Ratio(coarse: TimeUnit, fine: TimeUnit): (m: nat)
    requires Nanos(fine) <= Nanos(coarse)
    ensures m >= 1 && m * Nanos(fine) == Nanos(coarse)
  {
    Nanos(coarse) / Nanos(fine)
  }

  /** Java's integer division of a long by a positive divisor: truncates toward zero. */
  function DivToZero(a: int, b: int): (q: int)
    requires b > 0
    ensures a >= 0 ==> 0 <= q && q * b <= a < q * b + b
    ensures a < 0 ==> a <= q * b < a + b && q <= 0
  {
    if a >= 0 then a / b
    else
      var p := (-a) / b;
      assert p * b <= -a < p * b + b;
      NegateProduct(p, b);
      -p
  }

  lemma NegateProduct(p: int, b: int)
    ensures (-p) * b == -(p * b)
  {
  }

  /** Multiplying by a natural number keeps the order. */
  lemma {:induction false} MulMono(a: int, b: int, m: nat)
    requires a <= b
    ensures a * m <= b * m
    decreases m
  {
    if m > 0 {
      MulMono(a, b, m - 1);
      assert a * m == a * (m - 1) + a;
      assert b * m == b * (m - 1) + b;
    }
  }

  /** The quotient is the only q with q * m <= x < q * m + m. */
  lemma QuotientUnique(x: int, d: int, q: int, m: nat)
    requires m >= 1 && x == d * m
    requires q * m <= x < q * m + m
    ensures q == d
  {
    if q < d {
      assert (q + 1) * m == q * m + m;
      MulMono(q + 1, d, m);
    } else if q > d {
      assert (d + 1) * m == d * m + m;
      MulMono(d + 1, q, m);
    }
  }

  /** TimeUnit's x(d, m, over): multiply, clamping to the long range on overflow. */
  function Saturate(d: Int64, m: nat): (r: Int64)
    requires m >= 1
    ensures -(LONG_MAX / m) <= d <= LONG_MAX / m ==> r == d * m
    ensures d > LONG_MAX / m ==> r == LONG_MAX
    ensures d < -(LONG_MAX / m) ==> r == LONG_MIN
  {
    var over := LONG_MAX / m;
    if d > over then LONG_MAX
    else if d < -over then LONG_MIN
    else
      BoundedProduct(d, m);
      d * m
  }

  lemma BoundedProduct(d: int, m: nat)
    requires m >= 1 && -(LONG_MAX / m) <= d <= LONG_MAX / m
    ensures -LONG_MAX <= d * m <= LONG_MAX
  {
    var over := LONG_MAX / m;
    assert over * m <= LONG_MAX;
    MulMono(d, over, m);
    MulMono(-over, d, m);
    NegateProduct(over, m);
  }

  /** `to.convert(d, from)`, i.e. from.toXxx(d) for the target unit Xxx. */
  function Convert(d: Int64, from: TimeUnit, to: TimeUnit): (r: Int64)
    ensures Nanos(to) <= Nanos(from) && -(LONG_MAX / Ratio(from, to)) <= d <= LONG_MAX / Ratio(from, to)
            ==> r == d * Ratio(from, to)
    ensures Nanos(from) < Nanos(to) ==> r == DivToZero(d, Ratio(to, from))
  {
    if Nanos(to) <= Nanos(from) then Saturate(d, Ratio(from, to))
    else
      var q := DivToZero(d, Ratio(to, from));
      assert LONG_MIN <= q <= LONG_MAX by { QuotientBounds(d, Ratio(to, from)); }
      q
  }

  lemma QuotientBounds(d: Int64, m: nat)
    requires m >= 1
    ensures LONG_MIN <= DivToZero(d, m) <= LONG_MAX
  {
    var q := DivToZero(d, m);
    if d >= 0 {
      assert q * m <= d;
      assert q <= q * m;
    } else {
      assert d <= q * m;
      MulMono(q, 0, m - 1);
      assert q * m == q * (m - 1) + q;
    }
  }

  /** A duration: an amount and its unit. */
  datatype Duration = Duration(duration: Int64, unit: TimeUnit)

  /** The constructor: a null unit is rejected (checkNotNull). */
  function NewDuration(duration: Int64, unit: Option<TimeUnit>): (r: Option<Duration>)
    ensures r.Some? <==> unit.Some?
    ensures r.Some? ==> r.value.duration == duration && r.value.unit == unit.value
  {
    if unit.None? then None else Some(Duration(duration, unit.value))
  }

  /** toString: the amount, one space, the unit's name. */
  function ToString(d: Duration): string {
    IntToString(d.duration) + " " + UnitName(d.unit)
  }

  function ToNanos(d: Duration): Int64 { Convert(d.duration, d.unit, NANOSECONDS) }
  function ToMicros(d: Duration): Int64 { Convert(d.duration, d.unit, MICROSECONDS) }
  function ToMillis(d: Duration): Int64 { Convert(d.duration, d.unit, MILLISECONDS) }
  function ToSeconds(d: Duration): Int64 { Convert(d.duration, d.unit, SECONDS) }
  function ToMinutes(d: Duration): Int64 { Convert(d.duration, d.unit, MINUTES) }
  function ToHours(d: Duration): Int64 { Convert(d.duration, d.unit, HOURS) }
  function ToDays(d: Duration): Int64 { Convert(d.duration, d.unit, DAYS) }

  /** convert(sourceDuration, sourceUnit): an amount in another unit expressed in this duration's unit. */
  function ConvertTo(d: Duration, sourceDuration: Int64, sourceUnit: TimeUnit): Int64 {
    Convert(sourceDuration, sourceUnit, d.unit)
  }

  /** Converting an amount already in the duration's own unit leaves it as it is. */
  lemma ConvertToOwnUnit(d: Duration, amount: Int64)
    ensures ConvertTo(d, amount, d.unit) == amount
  {
    assert Ratio(d.unit, d.unit) == 1;
  }

  /** toString reads back: a non-negative amount's decimal digits, one space, the unit's name. */
  lemma ToStringReadsBack(d: Duration)
    requires d.duration >= 0
    ensures var s := ToString(d); var k := |IntToString(d.duration)|;
      && k < |s| && s[k] == ' '
      && IsNumeric(s[..k]) && ParseNat(s[..k]) == d.duration
      && s[k + 1..] == UnitName(d.unit)
  {
    var s := ToString(d);
    var k := |IntToString(d.duration)|;
    assert s[..k] == IntToString(d.duration) == NatToString(d.duration);
    ParseNatToString(d.duration);
  }

  /** The duration's own test: 1337 seconds prints as "1337 SECONDS". */
  lemma ToStringExample()
    ensures ToString(Duration(1337, SECONDS)) == "1337 SECONDS"
  {
    assert NatToString(1337) == "1337" by {
      assert NatToString(1) == "1";
      assert NatToString(13) == "13";
      assert NatToString(133) == "133";
    }
  }

  lemma MulDivCancel(d: int, m: nat)
    requires m >= 1
    ensures DivToZero(d * m, m) == d
  {
    var q := DivToZero(d * m, m);
    if d >= 0 {
      MulMono(0, d, m);
      QuotientUnique(d * m, d, q, m);
    } else {
      QuotientUnique(q * m, q, d, m);
    }
  }

  /** Refining and then coarsening back gives the original amount when nothing saturated. */
  lemma {:induction false} ConvertRoundTrip(d: Int64, coarse: TimeUnit, fine: TimeUnit)
    requires Nanos(fine) <= Nanos(coarse)
    requires -(LONG_MAX / Ratio(coarse, fine)) <= d <= LONG_MAX / Ratio(coarse, fine)
    ensures Convert(Convert(d, coarse, fine), fine, coarse) == d
  {
    var m := Ratio(coarse, fine);
    if Nanos(fine) == Nanos(coarse) {
      assert m == 1;
    } else {
      MulDivCancel(d, m);
    }
  }

  /** Conversion never reverses the order of two amounts. */
  lemma ConvertMonotone(a: Int64, b: Int64, from: TimeUnit, to: TimeUnit)
    requires a <= b
    ensures Convert(a, from, to) <= Convert(b, from, to)
  {
    if Nanos(to) <= Nanos(from) {
      var m := Ratio(from, to);
      MulMono(a, b, m);
    } else {
      DivMonotone(a, b, Ratio(to, from));
    }
  }

  lemma DivMonotone(a: int, b: int, m: nat)
    requires m >= 1 && a <= b
    ensures DivToZero(a, m) <= DivToZero(b, m)
  {
    var qa, qb := DivToZero(a, m), DivToZero(b, m);
    if qa > qb {
      assert (qb + 1) * m == qb * m + m;
      MulMono(qb + 1, qa, m);
    }
  }

  /** The conversions of the duration's own tests: 1 s, 1 h, 1 day and the truncating 48 h. */
  lemma ConversionExamples()
    ensures ToNanos(Duration(1, SECONDS)) == 1_000_000_000
    ensures ToMicros(Duration(1, SECONDS)) == 1_000_000
    ensures ToMillis(Duration(1, SECONDS)) == 1_000
    ensures ToSeconds(Duration(1, HOURS)) == 3_600
    ensures ToMinutes(Duration(1, HOURS)) == 60
    ensures ToHours(Duration(1, DAYS)) == 24
    ensures ToDays(Duration(48, HOURS)) == 2
    ensures ToDays(Duration(47, HOURS)) == 1
  {
  }
}
