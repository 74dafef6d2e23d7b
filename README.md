# SafeMapper risk scoring, in Dafny

This project models the risk-scoring arithmetic of the SafeMapper backend
(`apih.py`). For one query point, the backend takes five signals and scores
each one into a normalised value:

- disaster incidents within 300 km, weighted by severity;
- weather severity, from wind speed and the WMO weather code;
- road isolation, from the number of roads within 500 m;
- point-of-interest sparsity, from the number of amenities within 500 m;
- the night factor, from how far the time of day is from solar noon.

The endpoint then combines these five scores and a caller-supplied
user-report value with fixed weights 0.35 / 0.20 / 0.10 / 0.15 / 0.10 / 0.10.
It rounds the result to three decimals.

The upstream fetches are replaced by their results, passed in as data:

- the incident feed becomes a sequence of `Event(distanceKm, severity)`;
- the weather response becomes `Forecast(windspeed, weathercode, daily)`;
- each map query becomes its element count;
- the current time becomes a `Clock(hour, minute)`.

All arithmetic uses exact `real`s.

Modules: one for the numeric built-ins the rules use, one for each scoring rule (road isolation and POI density inverse share one), and one for the endpoint:

- `Numeric` (numeric.dfy): Python's `min`, `abs` and `round(x, 3)`. The rounding is modelled as round-half-to-even to a multiple of 1/1000.
- `Incident` (incident.dfy): the incident-feed loop, as the method `IncidentDensity`. It is proved equal to the specification function `IncidentScore`, which is built on the running total `Accumulated`.
- `Weather` (weather.dfy): the conditional-increment step, as the method `WeatherSeverity`. It is proved equal to `WeatherScore`, a table of every combination of conditions.
- `Surroundings` (surroundings.dfy): road isolation and POI density inverse. Both are instances of one rule, `Sparsity`.
- `Night` (night.dfy): minutes since midnight, solar noon and the night factor.
- `Risk` (risk.dfy): the weighted combination and the `/risk` endpoint's arithmetic (`CalculateRisk`).

Facts about `apih.py` that shape the model:

- The incident score is capped only from above (apih.py:49). A nearby event with a negative severity therefore gives a negative score (`NegativeSeverityLeavesUnitRange`). The range results for the incident score and the final risk assume that no nearby event has a negative severity.
- `apih.py` has no fallback defaults for failed upstream calls, no polyline decoding, no route selection and no shared coordinate state. None of these is modelled.
- The night factor is rounded to three decimals before it is combined (apih.py:158). The model does the same.
- The `userReports` query parameter defaults to 0 (apih.py:164). `CalculateRisk` takes the same default.

## Model

| member | source | states |
|---|---|---|
| Numeric.Min | apih.py:47 | Python's two-argument `min` returns a value no larger than either argument and equal to one of them |
| Numeric.Abs | apih.py:150 | `abs` returns a non-negative value equal to the argument or its negation |
| Numeric.Round3TieToEven | apih.py:158 | on the exact value 0.0125, rounding to three decimals goes to the even neighbour 0.012 |
| Numeric.RoundHalfEven | apih.py:158 | the result is an integer within 1/2 of the input; an exact tie goes to the even integer |
| Numeric.Round3 | apih.py:189 | `round(x, 3)` gives a multiple of 1/1000 within 0.0005 of `x`, and keeps a value in [0, 1] inside [0, 1] |
| Numeric.Round3Monotone | apih.py:189 | rounding to three decimals never reverses the order of two values |
| Numeric.Round3Idempotent | apih.py:158 | a value that already has three decimals is unchanged by rounding |
| Incident.Contribution | apih.py:45-47 | one event adds at most 1; an event at 300 km or more adds 0; a nearby event with severity at least 10 adds exactly 1; a nearby event with non-negative severity adds at least 0 |
| Incident.Accumulated | apih.py:38-48 | the uncapped total is at most the number of events within 300 km |
| Incident.NearbyEvents | apih.py:45 | the radius filter keeps exactly the input events closer than 300 km, and its result is no longer than the input |
| Incident.IncidentScore | apih.py:49 | the capped score is at most 1 |
| Incident.IncidentDensity | apih.py:35-49 | the feed loop (add `min(severity/10, 1)` for each event within 300 km, then cap at 1) returns exactly `IncidentScore` of the events |
| Incident.AccumulatedAppend | apih.py:39-47 | the total over two stretches of the feed is the sum of their totals |
| Incident.OnlyNearbyEventsCount | apih.py:45-47 | the score over the whole feed equals the score over only the events within 300 km |
| Incident.AccumulatedNonNegative | apih.py:38-48 | with no negative severity within 300 km, the total is at least 0 |
| Incident.IncidentScoreInUnitRange | apih.py:38-49 | with no negative severity within 300 km, the score lies in [0, 1] |
| Incident.NegativeSeverityLeavesUnitRange | apih.py:46-49 | a single nearby event of severity -10 gives the score -1, so the lower bound needs the non-negativity assumption |
| Incident.FarEventIgnored | apih.py:45-47 | inserting an event at 300 km or farther anywhere in the feed leaves the score unchanged |
| Incident.IncidentScoreOrderIndependent | apih.py:39-49 | swapping two stretches of the feed does not change the score |
| Incident.IncidentScoreGrowsWithEvents | apih.py:39-49 | appending an event that is far away or has non-negative severity never lowers the score |
| Incident.SevereNearbyEventSaturates | apih.py:47-49 | one event within 300 km with severity at least 10 makes the score exactly 1, when no nearby severity is negative |
| Weather.WeatherScore | apih.py:70-81 | the weather score lies in [0, 1] for every wind speed and code |
| Weather.WeatherSeverity | apih.py:55-81 | adding 0.5 for wind over 40, 0.3 for codes 61/63/65 and 0.7 for codes 95/96/99, then capping at 1, gives exactly the table `WeatherScore`; the daily block is returned unchanged |
| Weather.RainAndThunderDisjoint | apih.py:75-79 | no weather code is both a rain code and a thunderstorm code |
| Weather.WeatherScoreZeroIff | apih.py:70-81 | the score is 0 exactly when the wind is at most 40 and the code is neither rain nor thunderstorm |
| Weather.WeatherScoreSaturatesIff | apih.py:72-81 | the score is 1 exactly when wind over 40 meets a thunderstorm code; wind with rain is not capped |
| Weather.WeatherScoreMonotoneInWind | apih.py:72-73 | for a fixed code, a stronger wind never lowers the score |
| Surroundings.Sparsity | apih.py:101 | `1 - min(count/saturation, 1)` lies in [0, 1]; it is 1 exactly at count 0 and 0 exactly from `saturation` on; below saturation it equals `(saturation - count)/saturation` |
| Surroundings.RoadIsolation | apih.py:87-101 | road isolation lies in [0, 1]; it is 1 exactly when no road is found and 0 exactly when 50 or more are found |
| Surroundings.PoiInverse | apih.py:107-121 | POI density inverse lies in [0, 1]; it is 1 exactly when no amenity is found and 0 exactly when 30 or more are found |
| Surroundings.SparsityAntitone | apih.py:121 | more features never raise the score, and below saturation each extra feature strictly lowers it |
| Surroundings.RoadIsolationAntitone | apih.py:99-101 | more roads never raise road isolation, and strictly lower it below 50 roads |
| Surroundings.PoiInverseAntitone | apih.py:119-121 | more amenities never raise the POI score, and strictly lower it below 30 amenities |
| Night.ToMinutes | apih.py:139-140 | `hour*60 + minute` lies in [0, 1439], and hour and minute are recovered from it by division and remainder by 60 |
| Night.FromMinutes | apih.py:139-140 | every minute count of a day corresponds to a valid clock reading |
| Night.MinutesRoundTrip | apih.py:139-144 | converting a clock reading to minutes and back, or minutes to a clock reading and back, is the identity |
| Night.SolarNoon | apih.py:146-147 | solar noon lies exactly as far after sunrise as before sunset |
| Night.DistanceFromNoon | apih.py:150 | the distance from solar noon is non-negative, is 0 exactly at solar noon, and puts now that many minutes before or after noon |
| Night.NightFactorRaw | apih.py:147-156 | the unrounded factor lies in [0, 1]; it is 0 exactly at solar noon and 1 exactly when 720 or more minutes from it; below 1 it is the distance from noon divided by 720 |
| Night.NightFactor | apih.py:128-158 | the returned factor lies in [0, 1], has three decimals, and is within 0.0005 of the unrounded factor |
| Night.NightFactorSymmetric | apih.py:147-156 | two times equally far before and after solar noon give the same unrounded factor |
| Night.NightFactorMonotone | apih.py:150-156 | a time farther from solar noon never gives a smaller unrounded factor |
| Night.NightFactorRoundedSymmetricAndMonotone | apih.py:142-158 | the rounded factor keeps both the symmetry about solar noon and the growth with distance from it |
| Risk.Combine | apih.py:172-179 | the weighted risk lies between the smallest and the largest of the six components |
| Risk.CombineOfEqualComponents | apih.py:172-179 | the six weights sum to 1, so six equal components combine to their common value |
| Risk.CombineBetween | apih.py:172-179 | the combined risk lies between the smallest and the largest component; components in [0, 1] give a risk in [0, 1] |
| Risk.CombineMonotone | apih.py:172-179 | raising any component never lowers the combined risk |
| Risk.FinalRiskMonotone | apih.py:172-189 | raising any component never lowers the rounded final risk score |
| Risk.CalculateRisk | apih.py:163-190 | user reports default to 0; the breakdown holds each signal's score and the user-report value; the final score has three decimals and is within 0.0005 of the weighted sum; with no negative nearby severity and user reports in [0, 1], every component and the final score lie in [0, 1] |

## Left out

- HTTP calls to the incident feed, the forecast service and the map-feature service, and the indexing of their JSON payloads, are I/O. Their results are parameters: an event list with distances, a `Forecast`, and element counts.
- The haversine distance uses trigonometry on floats. Each event's distance from the query point is an input instead.
- Timestamp parsing (`datetime.fromisoformat`) and reading the clock (`datetime.now`) depend on the clock and the library. They are replaced by `Clock(hour, minute)` values. The first entries of the daily sunrise and sunset lists are taken as given, so an empty list (an index error in the source) is not modelled.
- Binary floating point is not modelled. All scores are exact reals. Results can differ from the source in the last bits.
- Numeric.Round3: at an exact decimal tie the model's rounded value can differ from the source's by 0.001, because the source rounds the nearest binary float, not the exact value. For example, sunrise 06:00, sunset 18:00 and now 12:09 give a distance of 9 minutes and an exact factor of 9/720 = 0.0125. The model rounds this to 0.012 (`Round3TieToEven`). The float nearest 9/720 lies just above 0.0125, so the source returns 0.013.
- The web framework, CORS middleware, routing decorator and construction of the response dictionary are not modelled. `RiskBreakdown` stands for the returned dictionary.
- Risk.CalculateRisk: the final score lies in [0, 1] only when no nearby event has a negative severity and the user-report value is in [0, 1]. The source validates neither, so the model cannot promise more.
