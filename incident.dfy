/** Incident density: disaster events near the query point, each weighted by
    its severity, summed and capped at 1. The distance of each event from the
    query point is an input here (it comes from the haversine formula). */
module Incident {
  import opened Numeric

  /** Events at least this far away (in km) are ignored. */
  const RadiusKm: real := 300.0

  /** A severity of this much or more gives an event its full weight of 1. */
  const SeverityScale: real := 10.0

  /** One feed event as the scoring loop sees it: its distance from the query
      point and its reported severity. */
  datatype Event = Event(distanceKm: real, severity: real)

  predicate Nearby(e: Event)
  {
    e.distanceKm < RadiusKm
  }

  /** What one event adds to the running total. */
  function Contribution(e: Event): (c: real)
    ensures c <= 1.0
    ensures !Nearby(e) ==> c == 0.0
    ensures Nearby(e) && 0.0 <= e.severity ==> 0.0 <= c
    ensures Nearby(e) && SeverityScale <= e.severity ==> c == 1.0
  {
    if Nearby(e) then Min(e.severity / SeverityScale, 1.0) else 0.0
  }

  /** The uncapped running total after all of `events`, in feed order. */
  function Accumulated(events: seq<Event>): (total: real)
    ensures total <= |NearbyEvents(events)| as real
    decreases |events|
  {
    if events == [] then 0.0
    else Accumulated(events[..|events| - 1]) + Contribution(events[|events| - 1])
  }

  /** The events that pass the radius filter, in feed order. */
  function NearbyEvents(events: seq<Event>): (near: seq<Event>)
    ensures |near| <= |events|
    ensures forall i :: 0 <= i < |near| ==> Nearby(near[i])
    ensures forall e :: e in near <==> e in events && Nearby(e)
    decreases |events|
  {
    if events == [] then []
    else
      var last := events[|events| - 1];
      assert events == events[..|events| - 1] + [last];
      NearbyEvents(events[..|events| - 1]) + (if Nearby(last) then [last] else [])
  }

  /** The incident density score: the total capped at 1. */
  function IncidentScore(events: seq<Event>): (score: real)
    ensures score <= 1.0
  {
    Min(Accumulated(events), 1.0)
  }

  /** Every event the radius filter keeps has a non-negative severity. */
  predicate NearbySeveritiesNonNegative(events: seq<Event>)
  {
    forall i :: 0 <= i < |events| && Nearby(events[i]) ==> 0.0 <= events[i].severity
  }

  /** The feed loop: walks the events in order, adds the capped severity of
      each one within the radius, and caps the total at 1. */
  method IncidentDensity(events: seq<Event>) returns (density: real)
    ensures density == IncidentScore(events)
  {
    var score := 0.0;
    for i := 0 to |events|
      invariant score == Accumulated(events[..i])
    {
      var event := events[i];
      assert events[..i + 1][..i] == events[..i];
      if event.distanceKm < RadiusKm {
        score := score + Min(event.severity / SeverityScale, 1.0);
      }
    }
    assert events[..|events|] == events;
    density := Min(score, 1.0);
  }

  /** The total over two stretches of the feed is the sum of their totals. */
  lemma {:induction false} AccumulatedAppend(a: seq<Event>, b: seq<Event>)
    ensures Accumulated(a + b) == Accumulated(a) + Accumulated(b)
    decreases |b|
  {
    if b == [] {
      assert a + b == a;
    } else {
      var b' := b[..|b| - 1];
      assert (a + b)[..|a + b| - 1] == a + b';
      assert (a + b)[|a + b| - 1] == b[|b| - 1];
      AccumulatedAppend(a, b');
    }
  }

  /** Only the events within the radius matter: the score over the whole feed
      equals the score over the filtered feed. */
  lemma {:induction false} OnlyNearbyEventsCount(events: seq<Event>)
    ensures Accumulated(NearbyEvents(events)) == Accumulated(events)
    ensures IncidentScore(NearbyEvents(events)) == IncidentScore(events)
    decreases |events|
  {
    if events != [] {
      var init, last := events[..|events| - 1], events[|events| - 1];
      OnlyNearbyEventsCount(init);
      AccumulatedAppend(NearbyEvents(init), if Nearby(last) then [last] else []);
      if Nearby(last) {
        assert [last][..0] == [];
      }
    }
  }

  /** With no negative severity inside the radius, the total is not negative. */
  lemma {:induction false} AccumulatedNonNegative(events: seq<Event>)
    requires NearbySeveritiesNonNegative(events)
    ensures 0.0 <= Accumulated(events)
    decreases |events|
  {
    if events != [] {
      AccumulatedNonNegative(events[..|events| - 1]);
    }
  }

  /** The score lies in [0, 1] as long as no nearby event has a negative severity. */
  lemma IncidentScoreInUnitRange(events: seq<Event>)
    requires NearbySeveritiesNonNegative(events)
    ensures 0.0 <= IncidentScore(events) <= 1.0
  {
    AccumulatedNonNegative(events);
  }

  /** The feed gives no such guarantee: one nearby event with a negative
      severity pushes the score below 0. */
  lemma NegativeSeverityLeavesUnitRange()
    ensures IncidentScore([Event(10.0, -10.0)]) == -1.0
  {
  }

  /** An event at 300 km or farther, wherever it appears in the feed, does not
      change the score. */
  lemma FarEventIgnored(before: seq<Event>, e: Event, after: seq<Event>)
    requires !Nearby(e)
    ensures IncidentScore(before + [e] + after) == IncidentScore(before + after)
  {
    AccumulatedAppend(before + [e], after);
    AccumulatedAppend(before, [e]);
    AccumulatedAppend(before, after);
    assert [e][..0] == [];
  }

  /** Swapping two stretches of the feed does not change the score. */
  lemma IncidentScoreOrderIndependent(a: seq<Event>, b: seq<Event>)
    ensures IncidentScore(a + b) == IncidentScore(b + a)
  {
    AccumulatedAppend(a, b);
    AccumulatedAppend(b, a);
  }

  /** An extra event never lowers the score unless it is nearby with a
      negative severity. */
  lemma IncidentScoreGrowsWithEvents(events: seq<Event>, e: Event)
    requires Nearby(e) ==> 0.0 <= e.severity
    ensures IncidentScore(events) <= IncidentScore(events + [e])
  {
  }

  /** One nearby event of severity 10 or more saturates the score at 1, when no
      other nearby event has a negative severity. */
  lemma SevereNearbyEventSaturates(events: seq<Event>, i: int)
    requires 0 <= i < |events|
    requires Nearby(events[i]) && SeverityScale <= events[i].severity
    requires NearbySeveritiesNonNegative(events)
    ensures IncidentScore(events) == 1.0
  {
    var before, after := events[..i], events[i + 1..];
    assert events == before + [events[i]] + after;
    AccumulatedAppend(before + [events[i]], after);
    AccumulatedAppend(before, [events[i]]);
    assert [events[i]][..0] == [];
    assert NearbySeveritiesNonNegative(before) by {
      forall k | 0 <= k < |before| && Nearby(before[k])
        ensures 0.0 <= before[k].severity
      {
        assert before[k] == events[k];
      }
    }
    assert NearbySeveritiesNonNegative(after) by {
      forall k | 0 <= k < |after| && Nearby(after[k])
        ensures 0.0 <= after[k].severity
      {
        assert after[k] == events[i + 1 + k];
      }
    }
    AccumulatedNonNegative(before);
    AccumulatedNonNegative(after);
  }
}
