/** The part of the live view that decides what is shown: fetch the most
    recent readings, stop with a waiting notice when there are none, and
    otherwise classify the AQI of the newest one. The store is not modelled:
    its answer to the query is a parameter. */
module LiveMonitor {
  import opened Severity
  import Classifier

  /** One stored reading, reduced to what the classification uses. */
  datatype Row = Row(id: int, aqi: int)

  /** What the store query produced: the returned rows, or an exception. */
  datatype Response = Answer(data: seq<Row>) | Raised

  /** The row cap the live view asks the fetch helper for. */
  const LiveLimit: nat := 50

  /** Rows as the query asks for them: ordered by identifier, largest first
      (identifiers never increase, ties allowed), at most `limit` of them. */
  predicate NewestFirst(rows: seq<Row>, limit: nat)
  {
    && |rows| <= limit
    && forall k :: 0 <= k < |rows| - 1 ==> rows[k].id >= rows[k + 1].id
  }

  /** The fetch helper: any exception is absorbed into an empty result, and
      the caller never sees a failure. A result it returns is either empty or
      what the store answered, so it keeps the query's order and cap. */
  function GetLatestData(resp: Response): (rows: seq<Row>)
    ensures resp.Raised? ==> rows == []
    ensures resp.Answer? ==> rows == resp.data
  {
    match resp
    case Answer(data) => data
    case Raised => []
  }

  /** An absorbed failure and an empty store are indistinguishable to the
      caller, and a well-formed answer reaches the caller unchanged. */
  lemma FetchKeepsQueryShape(resp: Response, limit: nat)
    requires resp.Answer? ==> NewestFirst(resp.data, limit)
    ensures NewestFirst(GetLatestData(resp), limit)
    ensures GetLatestData(resp) == [] <==> resp == Raised || resp == Answer([])
  {
  }

  /** What the live view shows: a waiting notice, or the AQI with its
      status text and colour. */
  datatype View = Waiting | Live(aqi: int, status: string, color: string)

  /** The view over the fetched rows: nothing is classified when there are
      no rows; otherwise the first row's AQI is shown with its class. */
  function LiveView(rows: seq<Row>): (v: View)
    ensures v == Waiting <==> rows == []
    ensures v.Live? ==> v.aqi == rows[0].aqi && (v.status, v.color) == Classifier.Classify(v.aqi)
  {
    if rows == [] then Waiting
    else
      var aqi := rows[0].aqi;
      var (status, color) := Classifier.Classify(aqi);
      Live(aqi, status, color)
  }

  /** One refresh of the live view, from the store's answer to a query
      capped at LiveLimit rows. */
  function ShowLiveMonitor(resp: Response): (v: View)
    ensures v == Waiting <==> resp == Raised || resp == Answer([])
  {
    LiveView(GetLatestData(resp))
  }

  /** In a newest-first sequence the first row has the largest identifier
      (possibly shared with later rows). */
  lemma {:induction false} HeadIsNewest(rows: seq<Row>, limit: nat)
    requires NewestFirst(rows, limit)
    requires rows != []
    ensures forall r :: r in rows ==> r.id <= rows[0].id
  {
    if |rows| > 1 {
      var rest := rows[1..];
      assert NewestFirst(rest, limit) by {
        forall k | 0 <= k < |rest| - 1
          ensures rest[k].id >= rest[k + 1].id
        {
          assert rest[k] == rows[k + 1] && rest[k + 1] == rows[k + 2];
        }
      }
      HeadIsNewest(rest, limit);
      assert rows == [rows[0]] + rest;
    }
  }

  /** When the store answers the live query with rows, the view shows the
      reading with the highest identifier among at most LiveLimit rows, in
      the bucket the ladder assigns to its AQI; otherwise it waits. */
  lemma ShowsNewestReading(resp: Response)
    requires resp.Answer? ==> NewestFirst(resp.data, LiveLimit)
    ensures ShowLiveMonitor(resp).Live? <==> resp.Answer? && 0 < |resp.data| <= LiveLimit
    ensures ShowLiveMonitor(resp).Live? ==>
      && (forall r :: r in resp.data ==> r.id <= resp.data[0].id)
      && ShowLiveMonitor(resp).aqi == resp.data[0].aqi
      && ShowLiveMonitor(resp).status == Label(Classifier.LevelOf(resp.data[0].aqi))
      && ShowLiveMonitor(resp).color == Color(Classifier.LevelOf(resp.data[0].aqi))
  {
    if resp.Answer? && resp.data != [] {
      HeadIsNewest(resp.data, LiveLimit);
    }
  }
}
