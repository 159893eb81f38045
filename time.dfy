/**
 * `TimeTool` (app/tools/time.ts): date arithmetic over a clock reading that is
 * passed in, and formatting through a locale renderer that is passed in.
 */
module Time {
  import opened Wrappers

  /** Milliseconds per unit, from the `multipliers` table; `None` for any other key. */
  function Multiplier(unit: string): Option<int> {
    if unit == "minutes" then Some(60 * 1000)
    else if unit == "hours" then Some(60 * 60 * 1000)
    else if unit == "days" then Some(24 * 60 * 60 * 1000)
    else if unit == "weeks" then Some(7 * 24 * 60 * 60 * 1000)
    else None
  }

  /** The largest magnitude a `Date` can hold, 8.64e15 milliseconds. */
  const MaxTimeValue: int := 8_640_000_000_000_000

  /** The time value of a `Date`: milliseconds since the epoch, or NaN ("Invalid Date"). */
  datatype TimeValue = Valid(ms: int) | Invalid

  predicate InDateRange(t: int) { -MaxTimeValue <= t <= MaxTimeValue }

  /** Truncation toward zero (ToIntegerOrInfinity on a finite number). */
  function Truncate(x: real): int {
    if x >= 0.0 then x.Floor else -((-x).Floor)
  }

  /** `new Date(x)` on a number: TimeClip, so out of range is invalid and the rest is truncated. */
  function MakeDate(x: real): (d: TimeValue)
    ensures d.Valid? <==> -(MaxTimeValue as real) <= x <= MaxTimeValue as real
  {
    if x > MaxTimeValue as real || x < -(MaxTimeValue as real) then Invalid else Valid(Truncate(x))
  }

  /**
   * `addTime(amount, unit)` read at the instant `now`: `now + amount * multipliers[unit]`.
   * A key outside the table multiplies by `undefined`, which gives NaN and an invalid date.
   */
  function AddTime(amount: real, unit: string, now: int): TimeValue {
    match Multiplier(unit)
    case None => Invalid
    case Some(m) => MakeDate(now as real + amount * m as real)
  }

  /** `formatTime(timestamp, format)`: both branches render the same `toLocaleString()`. */
  function FormatTime(timestamp: real, format: Option<string>, render: TimeValue -> string): string {
    if format.Some? && format.value != "" then render(MakeDate(timestamp))
    else render(MakeDate(timestamp))
  }

  // ---------------------------------------------------------------------------
  // Properties
  // ---------------------------------------------------------------------------

  /** The table is consistent: a week is seven days, a day 24 hours, an hour 60 minutes. */
  lemma MultiplierTable()
    ensures Multiplier("minutes") == Some(60000)
    ensures Multiplier("hours") == Some(60 * Multiplier("minutes").value)
    ensures Multiplier("days") == Some(24 * Multiplier("hours").value)
    ensures Multiplier("weeks") == Some(7 * Multiplier("days").value)
    ensures Multiplier("weeks") == Some(604800000)
  {
  }

  lemma TruncateMonotone(x: real, y: real)
    requires x <= y
    ensures Truncate(x) <= Truncate(y)
  {
  }

  lemma TruncateInt(n: int)
    ensures Truncate(n as real) == n
  {
  }

  /** Adding zero of a known unit gives back the current instant. */
  lemma AddZero(unit: string, now: int)
    requires Multiplier(unit).Some? && InDateRange(now)
    ensures AddTime(0.0, unit, now) == Valid(now)
  {
    TruncateInt(now);
  }

  /**
   * A whole number of weeks ahead is seven times as many days ahead, at the same
   * instant. Whole amounts keep the products exact, so this holds for the
   * double arithmetic of `addTime` as well.
   */
  lemma WeekIsSevenDays(weeks: int, now: int)
    ensures AddTime(weeks as real, "weeks", now) == AddTime((7 * weeks) as real, "days", now)
  {
  }

  /** A whole number of units moves the clock by exactly that many multiples. */
  lemma AddWholeUnits(k: int, unit: string, now: int)
    requires Multiplier(unit).Some?
    requires InDateRange(now + k * Multiplier(unit).value)
    ensures AddTime(k as real, unit, now) == Valid(now + k * Multiplier(unit).value)
  {
    var m := Multiplier(unit).value;
    assert k as real * m as real == (k * m) as real;
    var x := now as real + k as real * m as real;
    assert x == (now + k * m) as real;
    TruncateInt(now + k * m);
    assert MakeDate(x) == Valid(now + k * m);
  }

  /** Offsets are additive: adding `a` and then `b` units is adding `a + b` units. */
  lemma {:induction false} AddTimeAdditive(a: int, b: int, unit: string, now: int)
    requires Multiplier(unit).Some?
    requires InDateRange(now + a * Multiplier(unit).value)
    requires InDateRange(now + (a + b) * Multiplier(unit).value)
    ensures AddTime(a as real, unit, now).Valid?
    ensures AddTime((a + b) as real, unit, now) == AddTime(b as real, unit, AddTime(a as real, unit, now).ms)
  {
    var m := Multiplier(unit).value;
    AddWholeUnits(a, unit, now);
    AddWholeUnits(a + b, unit, now);
    assert (a + b) * m == a * m + b * m;
    AddWholeUnits(b, unit, now + a * m);
  }

  /** Negative amounts never move forward and positive ones never move backward. */
  lemma {:induction false} AddTimeDirection(amount: real, unit: string, now: int)
    requires AddTime(amount, unit, now).Valid?
    ensures amount <= 0.0 ==> AddTime(amount, unit, now).ms <= now
    ensures amount >= 0.0 ==> AddTime(amount, unit, now).ms >= now
  {
    var m := Multiplier(unit).value;
    TruncateInt(now);
    if amount <= 0.0 {
      assert amount * m as real <= 0.0;
      TruncateMonotone(now as real + amount * m as real, now as real);
    } else {
      assert amount * m as real >= 0.0;
      TruncateMonotone(now as real, now as real + amount * m as real);
    }
  }

  /** The `format` argument makes no difference. */
  lemma FormatIgnoresFormat(timestamp: real, format: Option<string>, render: TimeValue -> string)
    ensures FormatTime(timestamp, format, render) == FormatTime(timestamp, None, render)
  {
  }
}
