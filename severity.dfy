/** The six AQI severity buckets of the live monitor, their display names and
    colours, and the AQI range each of them covers. */
module Severity {

  /** Severity buckets, listed from least to most severe. */
  datatype Level = Good | Moderate | Poor | Unhealthy | VeryUnhealthy | Hazardous

  /** Position of a bucket on the colour bar, 0 (Good) to 5 (Hazardous). */
  function Rank(l: Level): (r: nat)
    ensures r <= 5
    ensures r == 0 <==> l == Good
    ensures r == 5 <==> l == Hazardous
  {
    match l
    case Good => 0
    case Moderate => 1
    case Poor => 2
    case Unhealthy => 3
    case VeryUnhealthy => 4
    case Hazardous => 5
  }

  /** The bucket at a given position on the colour bar: the inverse of Rank. */
  function FromRank(r: nat): (l: Level)
    requires r <= 5
    ensures Rank(l) == r
  {
    if r == 0 then Good
    else if r == 1 then Moderate
    else if r == 2 then Poor
    else if r == 3 then Unhealthy
    else if r == 4 then VeryUnhealthy
    else Hazardous
  }

  /** Rank and FromRank are inverse bijections between the buckets and 0..5. */
  lemma RankRoundTrip(l: Level)
    ensures FromRank(Rank(l)) == l
  {
  }

  /** Status text shown under the gauge. */
  function Label(l: Level): string
  {
    match l
    case Good => "Good"
    case Moderate => "Moderate"
    case Poor => "Poor"
    case Unhealthy => "Unhealthy"
    case VeryUnhealthy => "Very Unhealthy"
    case Hazardous => "Hazardous"
  }

  /** Colour of the big AQI number, the same one the bar segment uses. */
  function Color(l: Level): string
  {
    match l
    case Good => "#00e400"
    case Moderate => "#ffff00"
    case Poor => "#ff7e00"
    case Unhealthy => "#ff0000"
    case VeryUnhealthy => "#8f3f97"
    case Hazardous => "#7e0023"
  }

  /** No two buckets share a status text or a colour, so the text alone
      identifies the bucket and hence its colour. */
  lemma LabelsAndColorsDistinct(a: Level, b: Level)
    ensures Label(a) == Label(b) <==> a == b
    ensures Color(a) == Color(b) <==> a == b
  {
  }

  /** Largest AQI that still belongs to a bucket; Hazardous has no upper edge. */
  function UpperEdge(l: Level): int
    requires l != Hazardous
  {
    match l
    case Good => 50
    case Moderate => 100
    case Poor => 150
    case Unhealthy => 200
    case VeryUnhealthy => 300
  }

  /** Upper edges strictly increase with severity, so the buckets are disjoint
      consecutive ranges. */
  lemma EdgesIncrease(a: Level, b: Level)
    requires a != Hazardous && b != Hazardous
    ensures Rank(a) < Rank(b) <==> UpperEdge(a) < UpperEdge(b)
  {
  }

  /** The declarative reading of the ladder: an AQI belongs to a bucket when it
      lies above the upper edge of the bucket below (if any) and at or under its
      own upper edge (if any). Both edges are inclusive on the upper side. */
  predicate InBucket(aqi: int, l: Level)
  {
    && (l == Good || UpperEdge(FromRank(Rank(l) - 1)) < aqi)
    && (l == Hazardous || aqi <= UpperEdge(l))
  }
}
