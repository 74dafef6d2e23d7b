/** The point-risk endpoint: the five signal scores and the caller's user-report
    value, combined by fixed weights that sum to 1 and rounded to three decimals. */
module Risk {
  import opened Numeric
  import opened Incident
  import opened Weather
  import opened Surroundings
  import opened Night

  const IncidentWeight: real := 0.35
  const RoadWeight: real := 0.20
  const WeatherWeight: real := 0.10
  const PoiWeight: real := 0.15
  const NightWeight: real := 0.10
  const UserReportsWeight: real := 0.10

  /** The six component scores of one query. */
  datatype Signals = Signals(
    incidentDensity: real,
    roadIsolation: real,
    weatherSeverity: real,
    poiDensityInverse: real,
    nightFactor: real,
    userReports: real)

  /** The endpoint's answer: the components and the rounded final score. */
  datatype RiskBreakdown = RiskBreakdown(signals: Signals, finalRiskScore: real)

  /** What the upstream services and the clock report for one query point. */
  datatype Observations = Observations(
    events: seq<Event>,
    forecast: Forecast,
    roadCount: nat,
    poiCount: nat,
    now: Clock)

  predicate AllWithin(s: Signals, lo: real, hi: real)
  {
    && lo <= s.incidentDensity <= hi
    && lo <= s.roadIsolation <= hi
    && lo <= s.weatherSeverity <= hi
    && lo <= s.poiDensityInverse <= hi
    && lo <= s.nightFactor <= hi
    && lo <= s.userReports <= hi
  }

  /** Every component of `a` is at most the same component of `b`. */
  predicate Below(a: Signals, b: Signals)
  {
    && a.incidentDensity <= b.incidentDensity
    && a.roadIsolation <= b.roadIsolation
    && a.weatherSeverity <= b.weatherSeverity
    && a.poiDensityInverse <= b.poiDensityInverse
    && a.nightFactor <= b.nightFactor
    && a.userReports <= b.userReports
  }

  /** The smallest of the six components. */
  function Smallest(s: Signals): real
  {
    Min(Min(Min(s.incidentDensity, s.roadIsolation), Min(s.weatherSeverity, s.poiDensityInverse)),
        Min(s.nightFactor, s.userReports))
  }

  /** The largest of the six components. */
  function Largest(s: Signals): real
  {
    -Smallest(Signals(-s.incidentDensity, -s.roadIsolation, -s.weatherSeverity,
                      -s.poiDensityInverse, -s.nightFactor, -s.userReports))
  }

  /** The weighted sum, before rounding: a convex combination of the components. */
  function Combine(s: Signals): (risk: real)
    ensures Smallest(s) <= risk <= Largest(s)
  {
    IncidentWeight * s.incidentDensity
    + RoadWeight * s.roadIsolation
    + WeatherWeight * s.weatherSeverity
    + PoiWeight * s.poiDensityInverse
    + NightWeight * s.nightFactor
    + UserReportsWeight * s.userReports
  }

  /** The weights sum to 1, so six equal components combine to that value. */
  lemma CombineOfEqualComponents(v: real)
    ensures IncidentWeight + RoadWeight + WeatherWeight + PoiWeight + NightWeight + UserReportsWeight == 1.0
    ensures Combine(Signals(v, v, v, v, v, v)) == v
  {
  }

  /** The combination is a convex combination: it lies between the smallest and
      the largest component, so components in [0, 1] give a risk in [0, 1]. */
  lemma CombineBetween(s: Signals, lo: real, hi: real)
    requires AllWithin(s, lo, hi)
    ensures lo <= Combine(s) <= hi
  {
  }

  /** Raising any component never lowers the risk. */
  lemma CombineMonotone(a: Signals, b: Signals)
    requires Below(a, b)
    ensures Combine(a) <= Combine(b)
  {
  }

  /** The rounded final score keeps the same order as the components. */
  lemma FinalRiskMonotone(a: Signals, b: Signals)
    requires Below(a, b)
    ensures Round3(Combine(a)) <= Round3(Combine(b))
  {
    CombineMonotone(a, b);
    Round3Monotone(Combine(a), Combine(b));
  }

  /** The endpoint: scores each signal from its observations, in the order the
      endpoint does, and combines them with the caller's user-report value,
      which defaults to 0 when the request leaves it out. */
  method CalculateRisk(obs: Observations, userReports: real := 0.0) returns (b: RiskBreakdown)
    requires ValidClock(obs.now)
    requires ValidClock(obs.forecast.daily.sunrise) && ValidClock(obs.forecast.daily.sunset)
    ensures b.signals == Signals(
      IncidentScore(obs.events),
      RoadIsolation(obs.roadCount),
      WeatherScore(obs.forecast.windspeed, obs.forecast.weathercode),
      PoiInverse(obs.poiCount),
      NightFactor(obs.forecast.daily, obs.now),
      userReports)
    ensures -0.0005 <= b.finalRiskScore - Combine(b.signals) <= 0.0005
    ensures ThreeDecimals(b.finalRiskScore)
    ensures NearbySeveritiesNonNegative(obs.events) && 0.0 <= userReports <= 1.0
        ==> AllWithin(b.signals, 0.0, 1.0) && 0.0 <= b.finalRiskScore <= 1.0
  {
    var incidentDensity := IncidentDensity(obs.events);
    var weatherSeverity, dailyData := WeatherSeverity(obs.forecast);
    var roadIsolation := RoadIsolation(obs.roadCount);
    var poiDensityInverse := PoiInverse(obs.poiCount);
    var nightFactor := NightFactor(dailyData, obs.now);
    var signals := Signals(incidentDensity, roadIsolation, weatherSeverity,
                           poiDensityInverse, nightFactor, userReports);
    var risk := Combine(signals);
    if NearbySeveritiesNonNegative(obs.events) && 0.0 <= userReports <= 1.0 {
      IncidentScoreInUnitRange(obs.events);
      CombineBetween(signals, 0.0, 1.0);
    }
    b := RiskBreakdown(signals, Round3(risk));
  }
}
