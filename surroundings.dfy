/** Road isolation and point-of-interest sparsity: how few roads, and how few
    amenities, a map-feature query found within 500 m of the point. Both use
    the same rule, `1 - min(count / saturation, 1)`, with their own saturation. */
module Surroundings {
  import opened Numeric

  /** This many roads or more count as fully connected. */
  const RoadSaturation: nat := 50

  /** This many amenities or more count as fully served. */
  const PoiSaturation: nat := 30

  /** `1 - min(count / saturation, 1)`: 1 with nothing around, falling in equal
      steps to 0 at `saturation` features and staying there. */
  function Sparsity(count: nat, saturation: nat): (r: real)
    requires 0 < saturation
    ensures 0.0 <= r <= 1.0
    ensures r == 1.0 <==> count == 0
    ensures r == 0.0 <==> count >= saturation
    ensures count < saturation ==> r == (saturation - count) as real / saturation as real
  {
    1.0 - Min(count as real / saturation as real, 1.0)
  }

  /** Road isolation from the number of road ways found near the point. */
  function RoadIsolation(roadCount: nat): (r: real)
    ensures 0.0 <= r <= 1.0
    ensures r == 1.0 <==> roadCount == 0
    ensures r == 0.0 <==> roadCount >= 50
  {
    Sparsity(roadCount, RoadSaturation)
  }

  /** Point-of-interest density inverse from the number of amenity nodes found
      near the point. */
  function PoiInverse(poiCount: nat): (r: real)
    ensures 0.0 <= r <= 1.0
    ensures r == 1.0 <==> poiCount == 0
    ensures r == 0.0 <==> poiCount >= 30
  {
    Sparsity(poiCount, PoiSaturation)
  }

  /** More features never raise the score, and below saturation each extra
      feature strictly lowers it. */
  lemma SparsityAntitone(count1: nat, count2: nat, saturation: nat)
    requires 0 < saturation && count1 <= count2
    ensures Sparsity(count2, saturation) <= Sparsity(count1, saturation)
    ensures count1 < count2 && count1 < saturation
        ==> Sparsity(count2, saturation) < Sparsity(count1, saturation)
  {
    var s := saturation as real;
    assert count1 as real / s <= count2 as real / s;
    if count1 < count2 && count1 < saturation {
      assert count1 as real / s < count2 as real / s;
    }
  }

  lemma RoadIsolationAntitone(roadCount1: nat, roadCount2: nat)
    requires roadCount1 <= roadCount2
    ensures RoadIsolation(roadCount2) <= RoadIsolation(roadCount1)
    ensures roadCount1 < roadCount2 && roadCount1 < RoadSaturation
        ==> RoadIsolation(roadCount2) < RoadIsolation(roadCount1)
  {
    SparsityAntitone(roadCount1, roadCount2, RoadSaturation);
  }

  lemma PoiInverseAntitone(poiCount1: nat, poiCount2: nat)
    requires poiCount1 <= poiCount2
    ensures PoiInverse(poiCount2) <= PoiInverse(poiCount1)
    ensures poiCount1 < poiCount2 && poiCount1 < PoiSaturation
        ==> PoiInverse(poiCount2) < PoiInverse(poiCount1)
  {
    SparsityAntitone(poiCount1, poiCount2, PoiSaturation);
  }
}
