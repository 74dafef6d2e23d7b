/** Weather severity from the current wind speed and WMO weather-interpretation
    code, plus the day's sunrise and sunset, which the night factor reuses. */
module Weather {
  import opened Numeric

  /** Wind above this speed (km/h) counts as severe. */
  const WindThresholdKmh: real := 40.0

  const WindIncrement: real := 0.5
  const RainIncrement: real := 0.3
  const ThunderIncrement: real := 0.7

  /** Local time of day, as read off a parsed timestamp. */
  datatype Clock = Clock(hour: int, minute: int)

  /** The first day's sunrise and sunset from the forecast's daily block. */
  datatype Daylight = Daylight(sunrise: Clock, sunset: Clock)

  /** The fields of a forecast response that the scoring reads. */
  datatype Forecast = Forecast(windspeed: real, weathercode: int, daily: Daylight)

  /** WMO codes 61, 63, 65: slight, moderate and heavy rain. */
  predicate IsRainCode(code: int)
  {
    code == 61 || code == 63 || code == 65
  }

  /** WMO codes 95, 96, 99: thunderstorm, with or without hail. */
  predicate IsThunderCode(code: int)
  {
    code == 95 || code == 96 || code == 99
  }

  /** The score for every combination of conditions, written out as a table. */
  function WeatherScore(wind: real, code: int): (score: real)
    ensures 0.0 <= score <= 1.0
  {
    var windy := wind > WindThresholdKmh;
    if IsThunderCode(code) then (if windy then 1.0 else 0.7)
    else if IsRainCode(code) then (if windy then 0.8 else 0.3)
    else if windy then 0.5
    else 0.0
  }

  /** The scoring step: adds one increment per condition that holds, caps the
      sum at 1, and hands the daylight times on unchanged. */
  method WeatherSeverity(forecast: Forecast) returns (severity: real, daily: Daylight)
    ensures severity == WeatherScore(forecast.windspeed, forecast.weathercode)
    ensures daily == forecast.daily
  {
    var wind := forecast.windspeed;
    var code := forecast.weathercode;
    var score := 0.0;
    if wind > WindThresholdKmh {
      score := score + WindIncrement;
    }
    if code in [61, 63, 65] {
      score := score + RainIncrement;
    }
    if code in [95, 96, 99] {
      score := score + ThunderIncrement;
    }
    severity := Min(score, 1.0);
    daily := forecast.daily;
  }

  /** No code is both a rain code and a thunderstorm code. */
  lemma RainAndThunderDisjoint(code: int)
    ensures !(IsRainCode(code) && IsThunderCode(code))
  {
  }

  /** The score is 0 exactly when the wind is at most 40 km/h and the code is
      neither rain nor thunderstorm. */
  lemma WeatherScoreZeroIff(wind: real, code: int)
    ensures WeatherScore(wind, code) == 0.0
        <==> wind <= WindThresholdKmh && !IsRainCode(code) && !IsThunderCode(code)
  {
  }

  /** The score is 1 exactly when strong wind meets a thunderstorm; wind with
      rain stays at 0.8. */
  lemma WeatherScoreSaturatesIff(wind: real, code: int)
    ensures WeatherScore(wind, code) == 1.0
        <==> wind > WindThresholdKmh && IsThunderCode(code)
  {
  }

  /** A stronger wind never lowers the score for the same weather code. */
  lemma WeatherScoreMonotoneInWind(wind1: real, wind2: real, code: int)
    requires wind1 <= wind2
    ensures WeatherScore(wind1, code) <= WeatherScore(wind2, code)
  {
  }
}
