# AQI dashboard: severity ladder and live-view selection

This project models the decision logic of a single-page air-quality
dashboard (`app.py`). It covers two parts. The first is the AQI status ladder:
an if/elif cascade that maps the integer AQI of the newest reading to one of
six (status, colour) pairs. The second is the live view's choice of what to show:
- fetch the 50 most recent rows, newest first;
- show a waiting notice when there are none;
- otherwise classify the first row.

Modules:

- `Severity` (severity.dfy): the six buckets (`Level`), their order on
  the colour bar (`Rank`/`FromRank`), status texts and colours, upper edges.
  It also holds the declarative range predicate `InBucket`, read as "above the
  previous bucket's upper edge, at or under its own".
- `Classifier` (classifier.dfy): the cascade as written (`LevelOf`) and the
  (status, colour) pair it binds (`Classify`). Also the range, boundary,
  totality/uniqueness, "label fixes colour" and monotonicity properties.
- `Ladder` (ladder.dfy): an independent, table-driven definition of the
  same ladder, an ordered table of (upper edge, bucket) scanned for the first
  match. It is proved equal to the cascade on every integer, and any ascending
  table of this shape is proved monotone.
- `LiveMonitor` (live_monitor.dfy): the store's answer as a parameter
  (`Answer(rows)` or `Raised`), the fetch helper that absorbs exceptions into
  an empty result, and the live view. The view waits on an empty result and
  otherwise shows the first row's AQI with its class. When the answer is
  ordered by identifier descending and capped at 50 rows, that first row is
  the newest reading. The model assumes that the timestamp conversion and the
  integer conversion of the AQI, which run after the fetch, succeed (see
  "## Left out").

The code applies no validation to a negative AQI: every AQI at or below 50,
negative values included, classifies as Good. The fifth status text is
"Very Unhealthy", with a space, and the model uses the code's strings.

## Model

| member | source | states |
|---|---|---|
| Severity.Rank | app.py:83-94 | buckets are numbered 0..5 in the ladder's order; 0 exactly for Good, 5 exactly for Hazardous |
| Severity.FromRank | app.py:83-94 | every position 0..5 names a bucket whose rank is that position (inverse of Rank) |
| Severity.RankRoundTrip | app.py:83-94 | FromRank(Rank(l)) == l for every bucket, so the order is a bijection onto 0..5 |
| Severity.LabelsAndColorsDistinct | app.py:83-94 | two buckets share a status text iff they are the same bucket, and likewise for colours |
| Severity.EdgesIncrease | app.py:83-92 | the upper edges 50, 100, 150, 200, 300 strictly increase with severity |
| Classifier.LevelOf | app.py:83-94 | the bucket the cascade picks always contains the AQI (upper edges inclusive, negatives in Good) |
| Classifier.Classify | app.py:83-94 | through `Severity.Label`, `Severity.Color` and `Severity.UpperEdge`, which hold the ladder's literals, the pair is ("Good","#00e400") iff aqi <= 50, ("Moderate","#ffff00") iff 51..100, ("Poor","#ff7e00") iff 101..150, ("Unhealthy","#ff0000") iff 151..200, ("Very Unhealthy","#8f3f97") iff 201..300, ("Hazardous","#7e0023") iff aqi > 300 |
| Classifier.ExactlyOneBucket | app.py:83-94 | totality and uniqueness: an AQI lies in a bucket's range iff that bucket is the one the cascade picks, so no AQI lies in two ranges |
| Classifier.ColorFollowsLabel | app.py:83-94 | every result is one bucket's (label, colour) pair, and equal status texts always come with equal colours |
| Classifier.BoundaryValues | app.py:83-94 | 50 Good, 51 and 100 Moderate, 101 and 150 Poor, 151 and 200 Unhealthy, 201 and 300 Very Unhealthy, 301 Hazardous |
| Classifier.SeverityMonotone | app.py:83-94 | if a <= b then rank(LevelOf(a)) <= rank(LevelOf(b)) |
| Ladder.TableAscending | app.py:83-92 | the thresholds, read as a table, increase in both edge and severity |
| Ladder.FirstMatch | app.py:83-94 | the scan stops at the first row whose edge is at least the AQI; all earlier edges are below it, or no row matches |
| Ladder.FirstMatchMonotone | app.py:83-94 | over an ascending table a larger AQI stops the scan no earlier |
| Ladder.LookupMonotone | app.py:83-94 | over an ascending table a larger AQI never gets a less severe bucket |
| Ladder.TableAgreesWithCascade | app.py:83-94 | the table scan and the if/elif cascade give the same bucket for every integer |
| LiveMonitor.GetLatestData | app.py:43-54 | an exception from the query yields an empty list; otherwise the store's rows are returned as they are |
| LiveMonitor.FetchKeepsQueryShape | app.py:43-54 | the helper's result keeps the query's newest-first order and row cap, and is empty exactly on an exception or an empty answer |
| LiveMonitor.LiveView | app.py:68-94 | the view waits iff there are no rows; otherwise it shows the first row's AQI with the pair the ladder gives it |
| LiveMonitor.ShowLiveMonitor | app.py:66-78 | one refresh waits exactly when the query raised or answered with no rows |
| LiveMonitor.HeadIsNewest | app.py:48-49 | in a sequence whose identifiers never increase, the first row has the largest identifier (duplicates allowed) |
| LiveMonitor.ShowsNewestReading | app.py:68-94 | given a newest-first answer of at most 50 rows (identifiers non-increasing), the live view shows a reading iff some rows came back (assuming the conversions at app.py:75 and 78 succeed), and then shows the highest-identifier row's AQI with its bucket's label and colour |

## Left out

- The backend client, its credentials and the query itself (app.py:9-12, 45-51) are network I/O through a foreign library. The store's answer is a parameter, `Response`, and its order and row cap are stated as the predicate `NewestFirst`, not derived from a table.
- Page configuration, CSS, sidebar widgets, metrics, the HTML gauge, the view routing and the "Future Predictions" placeholder (app.py:17-38, 59-60, 96-124, 157-169) are presentation only.
- The stored-data view `show_history` (app.py:134-152) only renders charts and a table of what the fetch helper returns. Its empty check is the same as the live view's.
- DataFrame construction, the `created_at` rename and the timezone conversion (app.py:73-75, 142-144) rely on library parsing and timezone rules that are not visible here.
- The ascending timestamp sort and the plotted trend charts (app.py:126-129, 145-149) are delegated to the plotting and dataframe libraries.
- The periodic refresh (app.py:65) is scheduling done by the UI framework; one refresh is `ShowLiveMonitor`.
- Temperature and humidity (app.py:79-80) are passed straight to the display and are not part of `Row`.
- LiveMonitor.LiveView: the model assumes that every fetched row's `created_at` converts to a timezone-aware timestamp (app.py:75) and that the first row's `aqi` converts to an integer (app.py:78). These conversions run outside the try/except of the fetch helper (app.py:44-54). When one of them fails (a missing or unparseable timestamp, a timestamp without a timezone, an `aqi` that is None, NaN or not a number), the refresh ends with an uncaught exception and shows neither the waiting notice nor a reading. `LiveView` is total and does not capture that outcome.
- LiveMonitor.Row: the AQI is already an integer. The `int(...)` conversion of a stored value that might not be integral (app.py:78) is not modelled.
- A background push listener, a single-slot mailbox, a rolling 50-sample history buffer and a "meaningful sample" filter belong to other revisions of the dashboard. `app.py` has none of them, so they are not part of this model.
