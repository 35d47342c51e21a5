/** The arrival clock of `Main`: the next event time is the current one plus
    an exponential-like delay whose rate depends on the hour of day and on
    whether the day is a weekend. A `LocalDateTime` is the number of
    milliseconds since 1970-01-01T00:00; it carries no zone, so calendar
    arithmetic on it is exact integer arithmetic. */
module Arrival {
  import opened JavaLang

  const MillisPerHour: int := 3_600_000
  const MillisPerDay: int := 86_400_000

  datatype DayOfWeek = Monday | Tuesday | Wednesday | Thursday | Friday | Saturday | Sunday

  function DayFromIndex(k: int): DayOfWeek
    requires 0 <= k < 7
  {
    match k
    case 0 => Monday
    case 1 => Tuesday
    case 2 => Wednesday
    case 3 => Thursday
    case 4 => Friday
    case 5 => Saturday
    case _ => Sunday
  }

  /** `getDayOfWeek`: 1970-01-01 was a Thursday; days before it count backwards. */
  function DayOfWeekOf(t: int): DayOfWeek
  {
    DayFromIndex((t / MillisPerDay + 3) % 7)
  }

  /** `getHour`. */
  function HourOf(t: int): (h: int)
    ensures 0 <= h < 24
  {
    (t / MillisPerHour) % 24
  }

  /** The weekend test of `computeNextTime`: Saturday or Sunday. */
  predicate IsWeekend(t: int) {
    DayOfWeekOf(t) == Saturday || DayOfWeekOf(t) == Sunday
  }

  /** The day after a given day of the week. */
  function NextDay(w: DayOfWeek): DayOfWeek {
    match w
    case Monday => Tuesday
    case Tuesday => Wednesday
    case Wednesday => Thursday
    case Thursday => Friday
    case Friday => Saturday
    case Saturday => Sunday
    case Sunday => Monday
  }

  /** The epoch is Thursday 1970-01-01T00:00; the millisecond before it is
      Wednesday 23:59:59.999; two days after it is Saturday, a weekend day. */
  lemma EpochAnchors()
    ensures DayOfWeekOf(0) == Thursday && HourOf(0) == 0 && !IsWeekend(0)
    ensures DayOfWeekOf(-1) == Wednesday && HourOf(-1) == 23
    ensures DayOfWeekOf(2 * MillisPerDay) == Saturday && IsWeekend(2 * MillisPerDay)
  {
    assert -1 / MillisPerDay == -1;
    assert -1 / MillisPerHour == -1;
  }

  /** Twenty-four hours later it is the next day of the week: with the anchor
      above, this fixes the day of every instant, before or after the epoch. */
  lemma DayOfWeekOneDayLater(t: int)
    ensures DayOfWeekOf(t + MillisPerDay) == NextDay(DayOfWeekOf(t))
    ensures HourOf(t + MillisPerDay) == HourOf(t)
  {
    DivAddMultiple(t, MillisPerDay, 1);
    DivAddMultiple(t, MillisPerHour, 24);
    var q := t / MillisPerDay;
    assert (q + 1 + 3) % 7 == ((q + 3) % 7 + 1) % 7;
  }

  /** Adding `k` whole units of `m` adds `k` to the floor quotient. */
  lemma DivAddMultiple(t: int, m: int, k: int)
    requires m > 0
    ensures (t + m * k) / m == t / m + k
  {
    var q, r := t / m, t % m;
    assert t == m * q + r && 0 <= r < m;
    assert m * (q + k) == m * q + m * k;
    DivUnique(t + m * k, m, q + k, r);
  }

  /** The factor `makeUpMean` applies; the labels are those of the Java
      switch, including the label 24 that no hour of day can reach. */
  function MeanFactor(hour: int, isWeekend: bool): (f: real)
    ensures 0.15 <= f <= 1.2
    ensures isWeekend ==> f <= 0.25
    ensures 0 <= hour < 24 ==> (f == 1.2 <==> !isWeekend && hour in {9, 10, 14, 15, 16, 17})
  {
    if isWeekend then
      if hour in {17, 18, 19, 20, 21, 22, 23, 24, 0, 1, 2, 3, 4, 5, 6, 7, 8} then 0.15 else 0.25
    else if hour in {19, 20, 21, 22, 23, 24, 0, 1, 2, 3, 4, 5, 6, 7} then 0.15
    else if hour == 12 then 0.8
    else if hour in {11, 13} then 0.95
    else if hour in {8, 18} then 0.35
    else 1.2
  }

  /** `makeUpMean`: the baseline scaled by the hour/weekend factor. The
      result lies between 0.15 and 1.2 times a positive baseline, and on a
      weekend it never exceeds a quarter of it. */
  function MakeUpMean(hour: int, isWeekend: bool, defaultMean: real): (m: real)
    ensures defaultMean > 0.0 ==> 0.15 * defaultMean <= m <= 1.2 * defaultMean && m > 0.0
    ensures defaultMean > 0.0 && isWeekend ==> m <= 0.25 * defaultMean
  {
    defaultMean * MeanFactor(hour, isWeekend)
  }

  /** The weekend table by ranges of hours: 9 to 16 gives a quarter of the
      baseline, every other hour (17 to 23 and 0 to 8) 0.15 of it. */
  lemma WeekendTable(hour: int, defaultMean: real)
    requires 0 <= hour < 24
    ensures MakeUpMean(hour, true, defaultMean) == defaultMean * (if 9 <= hour <= 16 then 0.25 else 0.15)
  {
  }

  /** The weekday table by ranges of hours: nights (19 to 23 and 0 to 7) 0.15,
      lunch (12) 0.8, around lunch (11, 13) 0.95, the edges of the working
      day (8, 18) 0.35, and the business hours 9, 10 and 14 to 17 1.2. */
  lemma WeekdayTable(hour: int, defaultMean: real)
    requires 0 <= hour < 24
    ensures MakeUpMean(hour, false, defaultMean) == defaultMean *
      (if hour >= 19 || hour <= 7 then 0.15
       else if hour == 12 then 0.8
       else if hour == 11 || hour == 13 then 0.95
       else if hour == 8 || hour == 18 then 0.35
       else 1.2)
  {
  }

  /** The delay function takes the scaled value as a rate: for the same
      uniform draw, a larger value never gives a longer delay. The formula
      `(long)(ln(1 - d) / -L)` has this property for L > 0. */
  ghost predicate RateLike(delay: (real, real) -> int) {
    forall l1: real, l2: real, d: real :: 0.0 < l1 <= l2 ==> delay(l2, d) <= delay(l1, d)
  }

  /** What `(long)(ln(1 - d) / -L)` guarantees for a positive rate and a
      uniform draw in [0, 1): `ln(1 - d) <= 0`, so the delay is not negative.
      For a negative rate the delay can be negative. */
  ghost predicate DelayOfRate(delay: (real, real) -> int) {
    forall l: real, d: real :: l > 0.0 && 0.0 <= d < 1.0 ==> delay(l, d) >= 0
  }

  /** The rate `computeNextTime` passes to the delay for an event at `t`. */
  function RateAt(t: int, defaultMean: real): real {
    MakeUpMean(HourOf(t), IsWeekend(t), defaultMean)
  }

  /** `computeNextTime`: the current time plus the delay drawn for the rate
      of the current hour; `delay(L, d)` stands for
      `(long)(Math.log(1.0 - d) / -L)` with the uniform draw `d`. For a
      positive baseline the rate is positive, so time never goes backwards;
      the code itself fixes the baseline at 20. */
  function ComputeNextTime(t: int, defaultMean: real, d: real, delay: (real, real) -> int): (next: int)
    ensures defaultMean > 0.0 && 0.0 <= d < 1.0 && DelayOfRate(delay) ==> next >= t
  {
    t + delay(RateAt(t, defaultMean), d)
  }

  /** Because the scaled value is a rate, the weekday business hours, which
      get the largest factor, produce the shortest gaps: no event time at any
      other hour is followed by a shorter delay for the same draw. */
  lemma BusinessHoursShortestGaps(delay: (real, real) -> int, defaultMean: real, d: real, busy: int, other: int)
    requires RateLike(delay) && defaultMean > 0.0
    requires !IsWeekend(busy) && HourOf(busy) in {9, 10, 14, 15, 16, 17}
    ensures ComputeNextTime(busy, defaultMean, d, delay) - busy <= ComputeNextTime(other, defaultMean, d, delay) - other
  {
    var lBusy, lOther := RateAt(busy, defaultMean), RateAt(other, defaultMean);
    assert lBusy == 1.2 * defaultMean;
    assert 0.0 < lOther <= lBusy;
    assert delay(lBusy, d) <= delay(lOther, d);
  }
}
