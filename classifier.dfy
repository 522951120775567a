/** The AQI status ladder of the live monitor: an if/elif cascade that maps
    the integer AQI of the latest reading to a status text and a colour. */
module Classifier {
  import opened Severity

  /** The cascade itself, each test inclusive on its upper edge. Nothing
      rejects a negative AQI: it fails no test before the first and lands in
      Good. Every integer lands in the bucket whose range contains it. */
  function LevelOf(aqi: int): (l: Level)
    ensures InBucket(aqi, l)
  {
    if aqi <= 50 then Good
    else if aqi <= 100 then Moderate
    else if aqi <= 150 then Poor
    else if aqi <= 200 then Unhealthy
    else if aqi <= 300 then VeryUnhealthy
    else Hazardous
  }

  /** The (status, color) pair the live monitor binds, one of six, stated as
      the AQI range that produces each pair. */
  function Classify(aqi: int): (r: (string, string))
    ensures r == ("Good", "#00e400") <==> aqi <= 50
    ensures r == ("Moderate", "#ffff00") <==> 51 <= aqi <= 100
    ensures r == ("Poor", "#ff7e00") <==> 101 <= aqi <= 150
    ensures r == ("Unhealthy", "#ff0000") <==> 151 <= aqi <= 200
    ensures r == ("Very Unhealthy", "#8f3f97") <==> 201 <= aqi <= 300
    ensures r == ("Hazardous", "#7e0023") <==> 300 < aqi
  {
    var l := LevelOf(aqi);
    (Label(l), Color(l))
  }

  /** Totality and uniqueness: every integer AQI lies in exactly one bucket,
      and that bucket is the one the cascade picks. */
  lemma ExactlyOneBucket(aqi: int, l: Level)
    ensures InBucket(aqi, l) <==> l == LevelOf(aqi)
  {
  }

  /** The status text determines the colour: two readings that show the same
      status always show it in the same colour, and the pair is always the
      label and colour of one bucket. */
  lemma ColorFollowsLabel(a: int, b: int)
    ensures exists l :: Classify(a) == (Label(l), Color(l))
    ensures Classify(a).0 == Classify(b).0 ==> Classify(a).1 == Classify(b).1
  {
    assert Classify(a) == (Label(LevelOf(a)), Color(LevelOf(a)));
  }

  /** The ten edge values around the five thresholds. */
  lemma BoundaryValues()
    ensures Classify(50) == ("Good", "#00e400")
    ensures Classify(51) == ("Moderate", "#ffff00")
    ensures Classify(100) == ("Moderate", "#ffff00")
    ensures Classify(101) == ("Poor", "#ff7e00")
    ensures Classify(150) == ("Poor", "#ff7e00")
    ensures Classify(151) == ("Unhealthy", "#ff0000")
    ensures Classify(200) == ("Unhealthy", "#ff0000")
    ensures Classify(201) == ("Very Unhealthy", "#8f3f97")
    ensures Classify(300) == ("Very Unhealthy", "#8f3f97")
    ensures Classify(301) == ("Hazardous", "#7e0023")
  {
  }

  /** A larger AQI never shows a less severe status. */
  lemma SeverityMonotone(a: int, b: int)
    requires a <= b
    ensures Rank(LevelOf(a)) <= Rank(LevelOf(b))
  {
  }
}
