/** The engine's time base (engine/PlanetFinderEngine.cpp, GetSecondsSince2000
    and CPlanetFinderEngine::init): whole seconds since the J2000 epoch plus a
    user bias in hours, and the day count derived from it. The clock reading
    and the epoch (resolved through the platform calendar) are parameters. */
module TimeBase {
  import opened Numbers

  const SecondsPerHour: int := 3600
  const SecondsPerDay: int := 24 * 3600

  /** `t_bias * 3600` stored into an int. */
  function BiasSeconds(tBiasHours: real): int
  {
    Trunc(tBiasHours * SecondsPerHour as real)
  }

  /** `(int)GetTime() - year2000Time + (int)(t_bias * 3600)`. */
  function SecondsSince2000(clock: real, year2000Time: int, tBiasHours: real): int
  {
    var t := Trunc(clock);
    var dt := t - year2000Time;
    var bias := BiasSeconds(tBiasHours);
    dt + bias
  }

  /** `secondsSince2000 / (24*3600)` in floating point. */
  function DaysSince2000(secondsSince2000: int): real
  {
    secondsSince2000 as real / SecondsPerDay as real
  }

  /** A whole number of hours of bias shifts the result by exactly that many
      hours; with no bias the result is the whole-second distance from the
      epoch. */
  lemma WholeHourBiasIsExact(clock: real, year2000Time: int, hours: int)
    ensures SecondsSince2000(clock, year2000Time, hours as real) == Trunc(clock) - year2000Time + SecondsPerHour * hours
    ensures SecondsSince2000(clock, year2000Time, 0.0) == Trunc(clock) - year2000Time
  {
    TruncOfInt(hours * SecondsPerHour);
    TruncOfInt(0);
  }

  /** A fractional bias loses less than one second, always toward zero. */
  lemma BiasErrorBelowOneSecond(tBiasHours: real)
    ensures var exact := tBiasHours * SecondsPerHour as real;
      var b := BiasSeconds(tBiasHours) as real;
      (exact >= 0.0 ==> 0.0 <= exact - b < 1.0) && (exact < 0.0 ==> 0.0 <= b - exact < 1.0)
  {
  }

  /** Opposite biases move the result by opposite amounts. */
  lemma OppositeBiasesCancel(clock: real, year2000Time: int, tBiasHours: real)
    ensures SecondsSince2000(clock, year2000Time, tBiasHours) + SecondsSince2000(clock, year2000Time, -tBiasHours)
         == 2 * (Trunc(clock) - year2000Time)
  {
    assert -tBiasHours * SecondsPerHour as real == -(tBiasHours * SecondsPerHour as real);
    TruncOdd(tBiasHours * SecondsPerHour as real);
  }

  /** The count never runs backwards while the clock moves forward. */
  lemma SecondsMonotoneInClock(c1: real, c2: real, year2000Time: int, tBiasHours: real)
    requires c1 <= c2
    ensures SecondsSince2000(c1, year2000Time, tBiasHours) <= SecondsSince2000(c2, year2000Time, tBiasHours)
  {
    TruncMonotone(c1, c2);
  }

  /** Whole days of seconds give a whole day count, and one more day of
      seconds adds exactly one day. */
  lemma DaysOfWholeDays(days: int, seconds: int)
    ensures DaysSince2000(days * SecondsPerDay) == days as real
    ensures DaysSince2000(seconds + SecondsPerDay) == DaysSince2000(seconds) + 1.0
  {
  }
}
