/** A data-driven reading of the status ladder: an ordered table of
    (upper edge, bucket) rows scanned for the first row whose edge is not
    below the AQI, with Hazardous when no row matches. The table is an
    independent definition of the cascade, proved to agree with it. */
module Ladder {
  import opened Severity
  import Classifier

  /** The thresholds of the cascade, least severe first. */
  const Table: seq<(int, Level)> :=
    [(50, Good), (100, Moderate), (150, Poor), (200, Unhealthy), (300, VeryUnhealthy)]

  /** Index of the first row whose upper edge is at least the AQI, or the
      table's length when there is none. */
  function FirstMatch(table: seq<(int, Level)>, aqi: int): (i: nat)
    ensures i <= |table|
    ensures forall j :: 0 <= j < i ==> table[j].0 < aqi
    ensures i < |table| ==> aqi <= table[i].0
    decreases |table|
  {
    if table == [] then 0
    else if aqi <= table[0].0 then 0
    else 1 + FirstMatch(table[1..], aqi)
  }

  /** The bucket the table assigns to an AQI. */
  function Lookup(table: seq<(int, Level)>, aqi: int): Level
  {
    var i := FirstMatch(table, aqi);
    if i < |table| then table[i].1 else Hazardous
  }

  /** A table whose edges and buckets both increase down its rows. */
  predicate Ascending(table: seq<(int, Level)>)
  {
    forall i, j :: 0 <= i < j < |table| ==>
      table[i].0 < table[j].0 && Rank(table[i].1) < Rank(table[j].1)
  }

  /** The cascade's thresholds form an ascending table. */
  lemma TableAscending()
    ensures Ascending(Table)
  {
  }

  /** Over an ascending table, the first match moves down the table (or off
      its end) as the AQI grows. */
  lemma FirstMatchMonotone(table: seq<(int, Level)>, a: int, b: int)
    requires Ascending(table)
    requires a <= b
    ensures FirstMatch(table, a) <= FirstMatch(table, b)
  {
  }

  /** Over an ascending table, a larger AQI never gets a less severe bucket. */
  lemma LookupMonotone(table: seq<(int, Level)>, a: int, b: int)
    requires Ascending(table)
    requires a <= b
    ensures Rank(Lookup(table, a)) <= Rank(Lookup(table, b))
  {
  }

  /** The table scan and the if/elif cascade agree on every integer AQI. */
  lemma TableAgreesWithCascade(aqi: int)
    ensures Lookup(Table, aqi) == Classifier.LevelOf(aqi)
  {
  }
}
