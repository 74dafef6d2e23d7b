/** Night factor: how far the current time of day is from solar noon (the
    midpoint of sunrise and sunset), as a fraction of twelve hours, capped at
    1 and rounded to three decimals. Times are compared as minutes since
    midnight; the calendar date is ignored. */
module Night {
  import opened Numeric
  import opened Weather

  const MinutesPerDay: int := 1440

  /** Twelve hours, the distance from noon that gives the full factor. */
  const MaxDistanceMinutes: int := 720

  /** The hour and minute fields of a datetime are always in range. */
  predicate ValidClock(c: Clock)
  {
    0 <= c.hour < 24 && 0 <= c.minute < 60
  }

  /** `hour * 60 + minute`: the minutes elapsed since midnight. */
  function ToMinutes(c: Clock): (m: int)
    requires ValidClock(c)
    ensures 0 <= m < MinutesPerDay
    ensures m / 60 == c.hour && m % 60 == c.minute
  {
    c.hour * 60 + c.minute
  }

  /** The clock reading that a count of minutes since midnight stands for. */
  function FromMinutes(m: int): (c: Clock)
    requires 0 <= m < MinutesPerDay
    ensures ValidClock(c)
  {
    Clock(m / 60, m % 60)
  }

  /** Minutes since midnight lose nothing: the two conversions are inverse. */
  lemma MinutesRoundTrip(c: Clock, m: int)
    requires ValidClock(c) && 0 <= m < MinutesPerDay
    ensures FromMinutes(ToMinutes(c)) == c
    ensures ToMinutes(FromMinutes(m)) == m
  {
  }

  /** Solar noon in minutes: halfway between sunrise and sunset. */
  function SolarNoon(sunriseM: int, sunsetM: int): (noon: real)
    ensures noon - sunriseM as real == sunsetM as real - noon
  {
    (sunriseM + sunsetM) as real / 2.0
  }

  /** How many minutes `nowM` lies before or after solar noon. */
  function DistanceFromNoon(nowM: int, sunriseM: int, sunsetM: int): (d: real)
    ensures 0.0 <= d
    ensures d == 0.0 <==> nowM as real == SolarNoon(sunriseM, sunsetM)
    ensures nowM as real == SolarNoon(sunriseM, sunsetM) + d || nowM as real == SolarNoon(sunriseM, sunsetM) - d
  {
    Abs(nowM as real - SolarNoon(sunriseM, sunsetM))
  }

  /** The factor before rounding. */
  function NightFactorRaw(nowM: int, sunriseM: int, sunsetM: int): (f: real)
    ensures 0.0 <= f <= 1.0
    ensures f == 0.0 <==> nowM as real == SolarNoon(sunriseM, sunsetM)
    ensures f == 1.0 <==> DistanceFromNoon(nowM, sunriseM, sunsetM) >= MaxDistanceMinutes as real
    ensures f < 1.0 ==> f * MaxDistanceMinutes as real == DistanceFromNoon(nowM, sunriseM, sunsetM)
  {
    Min(DistanceFromNoon(nowM, sunriseM, sunsetM) / MaxDistanceMinutes as real, 1.0)
  }

  /** The night factor for the first day's sunrise and sunset and the current
      time, all read as local clock times. */
  function NightFactor(daily: Daylight, now: Clock): (f: real)
    requires ValidClock(daily.sunrise) && ValidClock(daily.sunset) && ValidClock(now)
    ensures 0.0 <= f <= 1.0
    ensures ThreeDecimals(f)
    ensures -0.0005 <= f - NightFactorRaw(ToMinutes(now), ToMinutes(daily.sunrise), ToMinutes(daily.sunset)) <= 0.0005
  {
    var nowM := ToMinutes(now);
    var sunriseM := ToMinutes(daily.sunrise);
    var sunsetM := ToMinutes(daily.sunset);
    Round3(NightFactorRaw(nowM, sunriseM, sunsetM))
  }

  /** Two times the same distance before and after solar noon score the same. */
  lemma NightFactorSymmetric(nowM1: int, nowM2: int, sunriseM: int, sunsetM: int)
    requires nowM1 + nowM2 == sunriseM + sunsetM
    ensures NightFactorRaw(nowM1, sunriseM, sunsetM) == NightFactorRaw(nowM2, sunriseM, sunsetM)
  {
  }

  /** The farther from solar noon, the larger the factor. */
  lemma NightFactorMonotone(nowM1: int, nowM2: int, sunriseM: int, sunsetM: int)
    requires DistanceFromNoon(nowM1, sunriseM, sunsetM) <= DistanceFromNoon(nowM2, sunriseM, sunsetM)
    ensures NightFactorRaw(nowM1, sunriseM, sunsetM) <= NightFactorRaw(nowM2, sunriseM, sunsetM)
  {
  }

  /** Rounding keeps the symmetry and the order of the raw factor. */
  lemma NightFactorRoundedSymmetricAndMonotone(now1: Clock, now2: Clock, daily: Daylight)
    requires ValidClock(daily.sunrise) && ValidClock(daily.sunset)
    requires ValidClock(now1) && ValidClock(now2)
    ensures ToMinutes(now1) + ToMinutes(now2) == ToMinutes(daily.sunrise) + ToMinutes(daily.sunset)
        ==> NightFactor(daily, now1) == NightFactor(daily, now2)
    ensures DistanceFromNoon(ToMinutes(now1), ToMinutes(daily.sunrise), ToMinutes(daily.sunset))
         <= DistanceFromNoon(ToMinutes(now2), ToMinutes(daily.sunrise), ToMinutes(daily.sunset))
        ==> NightFactor(daily, now1) <= NightFactor(daily, now2)
  {
    var sunriseM, sunsetM := ToMinutes(daily.sunrise), ToMinutes(daily.sunset);
    var m1, m2 := ToMinutes(now1), ToMinutes(now2);
    if m1 + m2 == sunriseM + sunsetM {
      NightFactorSymmetric(m1, m2, sunriseM, sunsetM);
    }
    if DistanceFromNoon(m1, sunriseM, sunsetM) <= DistanceFromNoon(m2, sunriseM, sunsetM) {
      NightFactorMonotone(m1, m2, sunriseM, sunsetM);
      Round3Monotone(NightFactorRaw(m1, sunriseM, sunsetM), NightFactorRaw(m2, sunriseM, sunsetM));
    }
  }
}
